/**
 * The string and counter logic of the Electron main process (main.js):
 * the selector the injected page script records, the drain of the page's
 * event queue, the per-action sequence numbers and artefact names, and the
 * names of saved scripts.
 */
module MainProcess {
  import opened Wrappers
  import opened Text

  // ---------------------------------------------------------------------
  // The injected page script: recordEvent
  // ---------------------------------------------------------------------

  /** The parts of an event target `recordEvent` reads. `value` is None when the element has no `value` property. */
  datatype Target = Target(tagName: string, id: string, className: string, innerText: string, value: Option<string>)

  /** A recorded interaction: `{type, selector, text, value, timestamp}`; the bounding rectangle is not modelled. */
  datatype Info = Info(eventType: string, selector: string, text: Option<string>, value: Option<string>, timestamp: string)

  /** `#id` when the id is non-empty. */
  function IdPart(id: string): string {
    if id != "" then "#" + id else ""
  }

  /** `.` and the class list with spaces turned into dots, when it is non-empty. */
  function ClassPart(className: string): string {
    if className != "" then "." + ReplaceChar(className, ' ', '.') else ""
  }

  /** The selector `recordEvent` records: tag name, id part, class part (main.js line 99). */
  function Selector(tagName: string, id: string, className: string): string {
    tagName + IdPart(id) + ClassPart(className)
  }

  /** The class part is `.` followed by the class list with every space, and nothing else, turned into `.`. */
  lemma ClassPartLayout(className: string)
    ensures var c := ClassPart(className);
            && (className == "" ==> c == "")
            && (className != "" ==>
                  && |c| == |className| + 1 && c[0] == '.' && ' ' !in c
                  && forall i :: 0 <= i < |className| ==> c[1 + i] == (if className[i] == ' ' then '.' else className[i]))
  {
    ReplaceCharAt(className, ' ', '.');
    if className != "" {
      var c := ClassPart(className);
      assert forall i :: 0 <= i < |className| ==> c[1 + i] == ReplaceChar(className, ' ', '.')[i];
    }
  }

  /** The three parts of a concatenation can be sliced back out of it. */
  lemma SplitThree<T>(a: seq<T>, b: seq<T>, c: seq<T>)
    ensures (a + b + c)[..|a|] == a
    ensures (a + b + c)[|a|..|a| + |b|] == b
    ensures (a + b + c)[|a| + |b|..] == c
  {
  }

  /**
   * Reading the selector back: first the tag, then `#` and the id if there
   * is one, then the class part; with neither id nor class it is the tag.
   */
  lemma SelectorLayout(tagName: string, id: string, className: string)
    ensures var r := Selector(tagName, id, className);
            var k := |tagName| + |IdPart(id)|;
            && r[..|tagName|] == tagName
            && (id != "" ==> k == |tagName| + 1 + |id| && r[|tagName|] == '#' && r[|tagName| + 1..k] == id)
            && (id == "" ==> k == |tagName|)
            && r[k..] == ClassPart(className)
            && (id == "" && className == "" ==> r == tagName)
  {
    var r := Selector(tagName, id, className);
    var b := IdPart(id);
    SplitThree(tagName, b, ClassPart(className));
    if id != "" {
      var k := |tagName| + |b|;
      assert r[|tagName|..k] == b == "#" + id;
      assert r[|tagName|] == r[|tagName|..k][0];
      assert r[|tagName| + 1..k] == r[|tagName|..k][1..];
    } else {
      assert b == "";
      if className == "" {
        assert r == tagName + "" + "";
      }
    }
  }

  /** JavaScript's `x || null` for a string: the empty string, like a missing value, becomes null. */
  function OrNull(s: Option<string>): (r: Option<string>)
    ensures r.Some? <==> s.Some? && s.value != ""
    ensures r.Some? ==> r == s
  {
    if s.Some? && s.value != "" then s else None
  }

  /** The record `recordEvent` builds for an event of type `eventType` on `target` at time `now`. */
  function RecordEvent(eventType: string, target: Target, now: string): (info: Info)
    ensures info.selector == Selector(target.tagName, target.id, target.className)
    ensures info.eventType == eventType && info.timestamp == now
    ensures info.text == OrNull(Some(target.innerText)) && info.value == OrNull(target.value)
  {
    Info(eventType, Selector(target.tagName, target.id, target.className),
         OrNull(Some(target.innerText)), OrNull(target.value), now)
  }

  // ---------------------------------------------------------------------
  // The page's event queue, window.interactions
  // ---------------------------------------------------------------------

  /** What `window.interactions` holds: an array of events, or anything else (missing, null, a non-array). */
  datatype QueueValue = Events(events: seq<Info>) | NotAnArray

  /** The page's `window` as far as the recorder uses it. */
  class PageWindow {
    var interactions: QueueValue

    /** A page before the recorder's script has run. */
    constructor ()
      ensures interactions == NotAnArray
    {
      interactions := NotAnArray;
    }

    /** The injected script's `window.interactions = []`. */
    method Install()
      modifies this
      ensures interactions == Events([])
    {
      interactions := Events([]);
    }

    /** `window.interactions.push(info)`; when the queue is not an array the push throws and the `catch` swallows it. */
    method Record(info: Info)
      modifies this
      ensures old(interactions).Events? ==> interactions == Events(old(interactions).events + [info])
      ensures old(interactions).NotAnArray? ==> interactions == old(interactions)
    {
      if interactions.Events? {
        interactions := Events(interactions.events + [info]);
      }
    }

    /** The polling script: returns a copy of the queued events and empties the queue; a missing or non-array queue yields none. */
    method Drain() returns (events: seq<Info>)
      modifies this
      ensures events == (if old(interactions).Events? then old(interactions).events else [])
      ensures interactions == Events([])
    {
      if interactions.NotAnArray? {
        interactions := Events([]);
      }
      events := interactions.events;
      interactions := Events([]);
    }
  }

  /** Events recorded on a fresh page come out of one drain in the order they were recorded, and a second drain finds none. */
  method RecordThenDrain(a: Info, b: Info) returns (first: seq<Info>, second: seq<Info>)
    ensures first == [a, b]
    ensures second == []
  {
    var page := new PageWindow();
    page.Install();
    page.Record(a);
    page.Record(b);
    first := page.Drain();
    second := page.Drain();
  }

  // ---------------------------------------------------------------------
  // Sequence numbers and artefact names
  // ---------------------------------------------------------------------

  /** The four files written for each action. */
  datatype Artefact = FullScreenshot | ElementScreenshot | DomSnapshot | ActionJson

  function ArtefactPrefix(a: Artefact): string {
    match a
    case FullScreenshot => "screenshot-full-"
    case ElementScreenshot => "screenshot-elem-"
    case DomSnapshot => "dom-"
    case ActionJson => "action-"
  }

  function ArtefactSuffix(a: Artefact): string {
    match a
    case FullScreenshot => ".png"
    case ElementScreenshot => ".png"
    case DomSnapshot => ".html"
    case ActionJson => ".json"
  }

  /** `screenshot-full-${seq}.png`, `screenshot-elem-${seq}.png`, `dom-${seq}.html`, `action-${seq}.json`. */
  function ArtefactName(a: Artefact, seqNo: nat): string {
    ArtefactPrefix(a) + NatToString(seqNo) + ArtefactSuffix(a)
  }

  /** Which kind of artefact a name is, read from its first character and, for screenshots, its twelfth. */
  function KindOf(name: string): Artefact
    requires |name| > 0
  {
    if name[0] == 'd' then DomSnapshot
    else if name[0] == 'a' then ActionJson
    else if |name| > 11 && name[11] == 'f' then FullScreenshot
    else ElementScreenshot
  }

  /** Every artefact name is recognised as its own kind. */
  lemma KindOfName(a: Artefact, seqNo: nat)
    ensures |ArtefactName(a, seqNo)| > 0 && KindOf(ArtefactName(a, seqNo)) == a
  {
    var p, d, x := ArtefactPrefix(a), NatToString(seqNo), ArtefactSuffix(a);
    var n := p + d + x;
    assert n[0] == p[0];
    if a.FullScreenshot? || a.ElementScreenshot? {
      assert n[11] == p[11];
    }
  }

  /** No two artefact names coincide: the name determines both the kind of file and the sequence number. */
  lemma ArtefactNamesDistinct(a1: Artefact, s1: nat, a2: Artefact, s2: nat)
    requires ArtefactName(a1, s1) == ArtefactName(a2, s2)
    ensures a1 == a2 && s1 == s2
  {
    KindOfName(a1, s1);
    KindOfName(a2, s2);
    var p, x := ArtefactPrefix(a1), ArtefactSuffix(a1);
    var d1, d2 := NatToString(s1), NatToString(s2);
    assert p + d1 + x == p + d2 + x;
    assert |d1| == |d2|;
    assert d1 == (p + d1 + x)[|p|..|p| + |d1|];
    assert d2 == (p + d2 + x)[|p|..|p| + |d2|];
    NatToStringInjective(s1, s2);
  }

  /** The artefacts of one action, in the order the loop body writes them. */
  const ARTEFACT_ORDER: seq<Artefact> := [FullScreenshot, ElementScreenshot, DomSnapshot, ActionJson]

  /** A file written for an action: the folder, the kind of artefact and the action's sequence number. */
  datatype ArtefactFile = ArtefactFile(dir: seq<string>, kind: Artefact, seqNo: nat)

  /** The path `path.join(savePath, name)` of a written artefact, as its list of segments. */
  function PathOf(f: ArtefactFile): seq<string> {
    f.dir + [ArtefactName(f.kind, f.seqNo)]
  }

  /** Distinct artefacts have distinct paths. */
  lemma PathOfInjective(f: ArtefactFile, g: ArtefactFile)
    requires PathOf(f) == PathOf(g)
    ensures f == g
  {
    assert |f.dir| == |g.dir|;
    assert f.dir == PathOf(f)[..|f.dir|] && g.dir == PathOf(g)[..|g.dir|];
    assert PathOf(f)[|f.dir|] == ArtefactName(f.kind, f.seqNo);
    ArtefactNamesDistinct(f.kind, f.seqNo, g.kind, g.seqNo);
  }

  /** The four files written for action `seqNo`, in the order the loop body writes them. */
  function ActionFiles(dir: seq<string>, seqNo: nat): seq<ArtefactFile> {
    [ArtefactFile(dir, FullScreenshot, seqNo), ArtefactFile(dir, ElementScreenshot, seqNo),
     ArtefactFile(dir, DomSnapshot, seqNo), ArtefactFile(dir, ActionJson, seqNo)]
  }

  /** The files written for actions `first`, `first + 1`, ... (`count` of them) under the folder `dir`. */
  function BatchFiles(dir: seq<string>, first: nat, count: nat): (r: seq<ArtefactFile>)
    decreases count
    ensures |r| == 4 * count
  {
    if count == 0 then [] else ActionFiles(dir, first) + BatchFiles(dir, first + 1, count - 1)
  }

  /** File `4 * k + m` of a batch is artefact `m` of action `first + k`: sequence numbers are consecutive. */
  lemma {:induction false} BatchFilesAt(dir: seq<string>, first: nat, count: nat, k: nat, m: nat)
    requires k < count && m < 4
    decreases count
    ensures BatchFiles(dir, first, count)[4 * k + m] == ArtefactFile(dir, ARTEFACT_ORDER[m], first + k)
  {
    if k > 0 {
      BatchFilesAt(dir, first + 1, count - 1, k - 1, m);
    }
  }

  /** Two different positions differ in their action or in their artefact. */
  lemma DistinctPositions(i: nat, j: nat)
    requires i < j
    ensures i / 4 != j / 4 || i % 4 != j % 4
  {
    assert i == 4 * (i / 4) + i % 4 && j == 4 * (j / 4) + j % 4;
  }

  /** Within a batch no file is written twice. */
  lemma BatchFilesDistinct(dir: seq<string>, first: nat, count: nat, i: nat, j: nat)
    requires i < j < 4 * count
    ensures BatchFiles(dir, first, count)[i] != BatchFiles(dir, first, count)[j]
  {
    DistinctPositions(i, j);
    BatchFilesAt(dir, first, count, i / 4, i % 4);
    BatchFilesAt(dir, first, count, j / 4, j % 4);
  }

  /** Within a batch no path is written twice. */
  lemma BatchPathsDistinct(dir: seq<string>, first: nat, count: nat, i: nat, j: nat)
    requires i < j < 4 * count
    ensures PathOf(BatchFiles(dir, first, count)[i]) != PathOf(BatchFiles(dir, first, count)[j])
  {
    var files := BatchFiles(dir, first, count);
    BatchFilesDistinct(dir, first, count, i, j);
    if PathOf(files[i]) == PathOf(files[j]) {
      PathOfInjective(files[i], files[j]);
    }
  }

  // ---------------------------------------------------------------------
  // Timestamps and saved scripts
  // ---------------------------------------------------------------------

  /** `new Date().toISOString().replace(/:/g, '_')`, for the recording folder and the script file. */
  function SanitiseTimestamp(iso: string): (r: string)
    ensures |r| == |iso| && ':' !in r
    ensures forall i :: 0 <= i < |iso| ==> r[i] == (if iso[i] == ':' then '_' else iso[i])
  {
    ReplaceCharAt(iso, ':', '_');
    ReplaceChar(iso, ':', '_')
  }

  /** Sanitising a sanitised timestamp changes nothing. */
  lemma SanitiseIdempotent(iso: string)
    ensures SanitiseTimestamp(SanitiseTimestamp(iso)) == SanitiseTimestamp(iso)
  {
    ReplaceCharAbsent(SanitiseTimestamp(iso), ':', '_');
  }

  /** `${prefix}robot_script_${timestamp}.robot` with prefix `auto_` for an auto-save. */
  function ScriptFileName(iso: string, isAutoSave: bool): string {
    (if isAutoSave then "auto_" else "") + "robot_script_" + SanitiseTimestamp(iso) + ".robot"
  }

  /** The notification sent after a successful save. */
  function SavedEventName(isAutoSave: bool): string {
    if isAutoSave then "script-auto-saved" else "script-saved"
  }

  /**
   * The file name starts with `auto_` exactly for auto-saves, the event is
   * `script-auto-saved` exactly for auto-saves, and the name has no `:`.
   */
  lemma ScriptNameReflectsAutoSave(iso: string, isAutoSave: bool)
    ensures var name := ScriptFileName(iso, isAutoSave);
            && (|name| >= 5 && name[..5] == "auto_" <==> isAutoSave)
            && (SavedEventName(isAutoSave) == "script-auto-saved" <==> isAutoSave)
            && ':' !in name
  {
    var name := ScriptFileName(iso, isAutoSave);
    var ts := SanitiseTimestamp(iso);
    var prefix := if isAutoSave then "auto_" else "";
    assert name == prefix + "robot_script_" + ts + ".robot";
    if !isAutoSave {
      assert name[0] == 'r';
    }
    forall i | 0 <= i < |name| ensures name[i] != ':' {
      var p := |prefix| + 13;
      if i < |prefix| {
        assert name[i] == prefix[i];
      } else if i < p {
        assert name[i] == "robot_script_"[i - |prefix|];
      } else if i < p + |ts| {
        assert name[i] == ts[i - p];
      } else {
        assert name[i] == ".robot"[i - p - |ts|];
      }
    }
  }

  /** `savePath || path.join(__dirname, 'scripts')`: the recording folder when there is one, the app's scripts folder otherwise. */
  function ScriptFolder(savePath: Option<seq<string>>, appDir: string): seq<string> {
    savePath.GetOr([appDir, "scripts"])
  }

  // ---------------------------------------------------------------------
  // The main process's session state
  // ---------------------------------------------------------------------

  /**
   * The main process's module-level `actionCounter` and `savePath`, with the
   * artefact paths written and the interactions forwarded to the renderer.
   * Paths are lists of segments (`path.join`'s arguments); `appDir` is `__dirname`.
   */
  class Recorder {
    const appDir: string
    var actionCounter: nat
    var savePath: Option<seq<string>>
    var written: seq<ArtefactFile>
    var forwarded: seq<Info>

    constructor (appDir: string)
      ensures this.appDir == appDir
      ensures actionCounter == 0 && savePath == None && written == [] && forwarded == []
    {
      this.appDir := appDir;
      actionCounter := 0;
      savePath := None;
      written := [];
      forwarded := [];
    }

    /** The `start-tracking` handler: a fresh recording folder named by the sanitised timestamp, and the counter reset. */
    method StartTracking(now: string)
      modifies this
      ensures savePath == Some([appDir, "recordings", SanitiseTimestamp(now)])
      ensures actionCounter == 0
      ensures written == old(written) && forwarded == old(forwarded)
    {
      var timestamp := SanitiseTimestamp(now);
      savePath := Some([appDir, "recordings", timestamp]);
      actionCounter := 0;
    }

    /** The loop body's four writes for action `seqNo`, in order. */
    method WriteArtefacts(dir: seq<string>, seqNo: nat)
      modifies this
      ensures written == old(written) + ActionFiles(dir, seqNo)
      ensures actionCounter == old(actionCounter) && savePath == old(savePath) && forwarded == old(forwarded)
    {
      written := written + [ArtefactFile(dir, FullScreenshot, seqNo)];
      written := written + [ArtefactFile(dir, ElementScreenshot, seqNo)];
      written := written + [ArtefactFile(dir, DomSnapshot, seqNo)];
      written := written + [ArtefactFile(dir, ActionJson, seqNo)];
    }

    /**
     * The `for` loop of the polling callback: each event gets the next
     * sequence number and its four artefacts, and is forwarded. Without a
     * recording folder the first `path.join` throws after the counter was
     * incremented, and the `catch` abandons the batch.
     */
    method ProcessBatch(events: seq<Info>)
      modifies this
      ensures savePath == old(savePath)
      ensures old(savePath).Some? ==>
                && actionCounter == old(actionCounter) + |events|
                && written == old(written) + BatchFiles(old(savePath).value, old(actionCounter) + 1, |events|)
                && forwarded == old(forwarded) + events
      ensures old(savePath).None? ==>
                && actionCounter == old(actionCounter) + (if events == [] then 0 else 1)
                && written == old(written) && forwarded == old(forwarded)
    {
      if savePath.None? {
        if events != [] {
          actionCounter := actionCounter + 1;
        }
        return;
      }
      var dir := savePath.value;
      var i := 0;
      while i < |events|
        invariant 0 <= i <= |events|
        invariant savePath == old(savePath)
        invariant actionCounter == old(actionCounter) + i
        invariant written + BatchFiles(dir, actionCounter + 1, |events| - i)
               == old(written) + BatchFiles(dir, old(actionCounter) + 1, |events|)
        invariant forwarded == old(forwarded) + events[..i]
      {
        actionCounter := actionCounter + 1;
        var seqNo := actionCounter;
        WriteArtefacts(dir, seqNo);
        assert BatchFiles(dir, seqNo, |events| - i) == ActionFiles(dir, seqNo) + BatchFiles(dir, seqNo + 1, |events| - (i + 1));
        forwarded := forwarded + [events[i]];
        assert events[..i + 1] == events[..i] + [events[i]];
        i := i + 1;
      }
      assert events[..i] == events;
    }

    /** One tick of the polling interval: drain the page's queue and process what was in it. */
    method Poll(page: PageWindow)
      modifies this, page
      ensures page.interactions == Events([])
      ensures savePath == old(savePath)
      ensures var batch := if old(page.interactions).Events? then old(page.interactions).events else [];
              old(savePath).Some? ==>
                && actionCounter == old(actionCounter) + |batch|
                && written == old(written) + BatchFiles(old(savePath).value, old(actionCounter) + 1, |batch|)
                && forwarded == old(forwarded) + batch
      ensures var batch := if old(page.interactions).Events? then old(page.interactions).events else [];
              old(savePath).None? ==>
                && actionCounter == old(actionCounter) + (if batch == [] then 0 else 1)
                && written == old(written) && forwarded == old(forwarded)
    {
      var interactions := page.Drain();
      ProcessBatch(interactions);
    }

    /** The `clear-session` handler: the counter is reset and the recording folder forgotten. */
    method ClearSession()
      modifies this
      ensures actionCounter == 0 && savePath == None
      ensures written == old(written) && forwarded == old(forwarded)
    {
      actionCounter := 0;
      savePath := None;
    }

    /** The `save-custom-script` handler's choice of file and notification (the write itself is not modelled). */
    method SaveCustomScript(now: string, isAutoSave: bool) returns (scriptPath: seq<string>, eventName: string)
      ensures scriptPath == ScriptFolder(savePath, appDir) + [ScriptFileName(now, isAutoSave)]
      ensures eventName == SavedEventName(isAutoSave)
    {
      var timestamp := SanitiseTimestamp(now);
      var prefix := if isAutoSave then "auto_" else "";
      var folder := if savePath.Some? then savePath.value else [appDir, "scripts"];
      scriptPath := folder + [prefix + "robot_script_" + timestamp + ".robot"];
      eventName := if isAutoSave then "script-auto-saved" else "script-saved";
    }
  }
}
