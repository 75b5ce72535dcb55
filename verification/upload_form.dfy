/**
  The effect the upload form of src/components/ImageUploadForm.tsx runs
  whenever the action's state changes: on data, record a new scan at the
  front of the history, keeping at most ten; otherwise only show a notice.
  The clock readings that give a scan its id and timestamp are parameters.
 */
module UploadForm {
  import opened Types
  import opened Actions

  const DefaultFileName: string := "Uploaded Image"

  /** The most scans the history keeps. */
  const HistoryLimit: nat := 10

  function Min(a: int, b: int): int {
    if a <= b then a else b
  }

  /** The newest `HistoryLimit` scans of a most-recent-first list. */
  function Latest(h: seq<ScanResult>): (r: seq<ScanResult>)
    ensures |r| == Min(HistoryLimit, |h|)
    ensures forall i :: 0 <= i < |r| ==> r[i] == h[i]
  {
    h[..Min(HistoryLimit, |h|)]
  }

  /**
    The scan recorded for a successful run. Its contents are the run's, its
    image is the preview when there is one, and its file name falls back to
    the default when there is none.
   */
  function NewScan(data: ProcessedScanData, preview: Option<string>, fileName: Option<string>, id: string, timestamp: int): (s: ScanResult)
    ensures ProcessedScanData(s.extractedIngredients, s.suggestedAlternatives) == data
    ensures s.imageUrl.Some? <==> Truthy(preview)
    ensures s.imageUrl.Some? ==> s.imageUrl == preview
    ensures Truthy(s.originalImageFileName)
    ensures Truthy(fileName) ==> s.originalImageFileName == fileName
    ensures !Truthy(fileName) ==> s.originalImageFileName == Some(DefaultFileName)
    ensures s.id == id && s.timestamp == timestamp
  {
    ScanResult(
      id,
      timestamp,
      if Truthy(preview) then preview else None,
      Some(if Truthy(fileName) then fileName.value else DefaultFileName),
      data.detailedIngredients,
      data.alternatives)
  }

  /**
    Recording a scan: it goes first, followed by the nine most recent older
    scans in their order; anything older is dropped.
   */
  function InsertScan(h: seq<ScanResult>, s: ScanResult): (r: seq<ScanResult>)
    ensures |r| == 1 + Min(HistoryLimit - 1, |h|) && |r| <= HistoryLimit
    ensures r[0] == s
    ensures forall i :: 1 <= i < |r| ==> r[i] == h[i - 1]
    ensures r == Latest([s] + h)
  {
    [s] + h[..Min(HistoryLimit - 1, |h|)]
  }

  /** Recording `scans` one after another, oldest first. */
  function InsertAll(h: seq<ScanResult>, scans: seq<ScanResult>): seq<ScanResult>
    decreases |scans|
  {
    if scans == [] then h else InsertAll(InsertScan(h, scans[0]), scans[1..])
  }

  function Reverse<T>(s: seq<T>): (r: seq<T>)
    ensures |r| == |s|
  {
    if s == [] then [] else Reverse(s[1..]) + [s[0]]
  }

  /** Truncating the tail early does not change the newest scans. */
  lemma LatestOfLatest(a: seq<ScanResult>, b: seq<ScanResult>)
    ensures Latest(a + Latest(b)) == Latest(a + b)
  {
  }

  /**
    However many scans are recorded, the history holds the newest ten of them
    and of the scans before them, newest first. (With nothing recorded, an
    over-long history is left as it is.)
   */
  lemma {:induction false} InsertAllKeepsNewest(h: seq<ScanResult>, scans: seq<ScanResult>)
    requires scans != [] || |h| <= HistoryLimit
    ensures InsertAll(h, scans) == Latest(Reverse(scans) + h)
    decreases |scans|
  {
    if scans == [] {
      assert Reverse(scans) + h == h;
    } else {
      var s := scans[0];
      var rest := scans[1..];
      assert Reverse(scans) == Reverse(rest) + [s];
      if rest == [] {
        assert Reverse(scans) + h == [s] + h;
      } else {
        InsertAllKeepsNewest(InsertScan(h, s), rest);
        LatestOfLatest(Reverse(rest), [s] + h);
        assert Reverse(rest) + ([s] + h) == Reverse(scans) + h;
      }
    }
  }

  /** The notice the form shows. */
  datatype Notice =
    | ScanSuccessful
    | ScanError(description: string)
    | Notification(description: string)
    | NoNotice

  /** What the effect does: the notice it shows and the history it leaves. */
  datatype Effect = Effect(notice: Notice, history: seq<ScanResult>)

  /** The effect run on a new action state; data wins over an error, an error over a message. */
  function OnFormState(
    state: ActionState, history: seq<ScanResult>,
    preview: Option<string>, fileName: Option<string>, id: string, timestamp: int): (e: Effect)
    ensures e.history != history ==> state.data.Some?
    ensures e.notice == ScanSuccessful <==> state.data.Some?
    ensures state.data.Some? ==> e.notice == ScanSuccessful && |e.history| == 1 + Min(HistoryLimit - 1, |history|)
    ensures state.data.Some? ==>
      && e.history[0].extractedIngredients == state.data.value.detailedIngredients
      && e.history[0].suggestedAlternatives == state.data.value.alternatives
      && e.history[1..] == history[..|e.history| - 1]
    ensures e.notice.ScanError? <==> state.data.None? && Truthy(state.error)
    ensures e.notice.ScanError? ==> Some(e.notice.description) == state.error
    ensures e.notice.Notification? <==> state.data.None? && !Truthy(state.error) && Truthy(state.message)
    ensures e.notice.Notification? ==> Some(e.notice.description) == state.message
  {
    if state.data.Some? then
      Effect(ScanSuccessful, InsertScan(history, NewScan(state.data.value, preview, fileName, id, timestamp)))
    else if Truthy(state.error) then Effect(ScanError(state.error.value), history)
    else if Truthy(state.message) then Effect(Notification(state.message.value), history)
    else Effect(NoNotice, history)
  }

  /**
    After any run of the action the form either records exactly one scan or
    leaves the history alone; a failed run is reported as an error unless
    its message is empty, in which case nothing at all is shown.
   */
  lemma RunThenEffect(
    file: Option<File>, env: Collaborators, history: seq<ScanResult>,
    preview: Option<string>, fileName: Option<string>, id: string, timestamp: int)
    ensures
      var r := ProcessImage(file, env);
      var e := OnFormState(r.value, history, preview, fileName, id, timestamp);
      && (r.value.data.Some? ==> e.notice == ScanSuccessful && 1 <= |e.history| <= HistoryLimit)
      && (r.value.data.None? ==> e.history == history)
      && (r.value.data.None? && r.value.error != Some("") ==> e.notice == ScanError(r.value.error.value))
      && (r.value.data.None? && r.value.error == Some("") ==> e.notice == NoNotice)
  {
  }
}
