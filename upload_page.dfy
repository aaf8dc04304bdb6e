/** The upload page (src/pages/Upload.tsx): dropped files are queued as
    `pending`, classified by MIME type and name, and `uploadFiles` walks the
    queue, taking each pending entry through `uploading` with progress
    0, 10, ..., 100 to `success`. Entries are addressed by their random id;
    the ids are an input of `OnDrop`. */
module UploadPage {
  import opened Js
  import Seqs
  import opened FormData
  import opened Wrappers

  datatype FileKind = Audio | SheetMusic | Image | Other

  const AllKinds: seq<FileKind> := [Audio, Image, SheetMusic, Other]

  datatype UploadStatus = Pending | Uploading | Success | Failed

  /** One queued file: `UploadFile` of the page. */
  datatype UploadEntry = UploadEntry(file: File, id: string, status: UploadStatus, progress: int, error: Option<string>, kind: FileKind)

  /** A name the page treats as a score: it ends in `.mscz`, `.mscx`, `.xml` or `.musicxml`. */
  predicate IsScoreName(lowerName: string) {
    EndsWith(lowerName, ".mscz") || EndsWith(lowerName, ".mscx") || EndsWith(lowerName, ".xml") || EndsWith(lowerName, ".musicxml")
  }

  /** `getFileType`: audio and image by MIME prefix, in that order; then a score for the PDF
      type, a name containing `.pdf` or a score extension, compared case-insensitively; else other. */
  function GetFileType(f: File): (k: FileKind)
    ensures k == Audio <==> StartsWith(f.mime, "audio/")
    ensures k == Image <==> !StartsWith(f.mime, "audio/") && StartsWith(f.mime, "image/")
    ensures k == SheetMusic <==>
      (!StartsWith(f.mime, "audio/") && !StartsWith(f.mime, "image/")
       && (f.mime == "application/pdf" || Includes(Lower(f.name), ".pdf") || IsScoreName(Lower(f.name))))
  {
    if StartsWith(f.mime, "audio/") then Audio
    else if StartsWith(f.mime, "image/") then Image
    else if f.mime == "application/pdf" || Includes(Lower(f.name), ".pdf") then SheetMusic
    else if IsScoreName(Lower(f.name)) then SheetMusic
    else Other
  }

  lemma {:induction false} LowerIdempotent(s: string)
    ensures Lower(Lower(s)) == Lower(s)
  {
    assert forall i :: 0 <= i < |s| ==> LowerChar(LowerChar(s[i])) == LowerChar(s[i]);
  }

  /** The classification ignores the case of the name: renaming `Song.PDF` to `song.pdf` changes nothing. */
  lemma FileTypeIgnoresCase(f: File)
    ensures GetFileType(f) == GetFileType(f.(name := Lower(f.name)))
  {
    LowerIdempotent(f.name);
  }

  /** `getFileTypeLabel`. */
  function FileTypeLabel(k: FileKind): string {
    match k
    case Audio => "Audio"
    case Image => "Imagen"
    case SheetMusic => "Partitura"
    case Other => "Archivo"
  }

  /** `getStatusColor`. */
  function StatusColor(s: UploadStatus): string {
    match s
    case Success => "success"
    case Failed => "error"
    case Uploading => "primary"
    case Pending => "default"
  }

  /** The four kinds have four different labels, so the per-type summary never merges two kinds. */
  lemma LabelsDistinct(a: FileKind, b: FileKind)
    requires a != b
    ensures FileTypeLabel(a) != FileTypeLabel(b)
  {
    assert FileTypeLabel(a)[0] != FileTypeLabel(b)[0] || |FileTypeLabel(a)| != |FileTypeLabel(b)|;
  }

  /** The entries `onDrop` queues for the accepted files: pending, at progress 0, classified. */
  function NewEntries(accepted: seq<File>, ids: seq<string>): (r: seq<UploadEntry>)
    requires |ids| == |accepted|
    ensures |r| == |accepted|
    ensures forall i :: 0 <= i < |r| ==>
      r[i].file == accepted[i] && r[i].id == ids[i] && r[i].status == Pending && r[i].progress == 0
      && r[i].error == None && r[i].kind == GetFileType(accepted[i])
  {
    seq(|accepted|, i requires 0 <= i < |accepted| => UploadEntry(accepted[i], ids[i], Pending, 0, None, GetFileType(accepted[i])))
  }

  /** Progress is a multiple of ten between 0 and 100: the only values the page writes. */
  ghost predicate ProgressOk(files: seq<UploadEntry>) {
    forall k :: 0 <= k < |files| ==> 0 <= files[k].progress <= 100 && files[k].progress % 10 == 0
  }

  lemma ProgressOkFilter(files: seq<UploadEntry>, p: UploadEntry -> bool)
    requires ProgressOk(files)
    ensures ProgressOk(Seqs.Filter(files, p))
  {
    Seqs.FilterElements(files, p);
  }

  function HasStatus(st: UploadStatus): UploadEntry -> bool {
    (e: UploadEntry) => e.status == st
  }

  function HasKind(kind: FileKind): UploadEntry -> bool {
    (e: UploadEntry) => e.kind == kind
  }

  function NotStatus(st: UploadStatus): UploadEntry -> bool {
    (e: UploadEntry) => e.status != st
  }

  function HasOtherId(id: string): UploadEntry -> bool {
    (e: UploadEntry) => e.id != id
  }

  /** `files.filter(f => f.status === st).length`. */
  function CountStatus(files: seq<UploadEntry>, st: UploadStatus): nat {
    |Seqs.Filter(files, HasStatus(st))|
  }

  /** `files.filter(f => f.type === kind).length`. */
  function CountKind(files: seq<UploadEntry>, kind: FileKind): nat {
    |Seqs.Filter(files, HasKind(kind))|
  }

  /** The per-type counts of the summary add up to the number of queued files. */
  lemma {:induction false} KindCountsSum(files: seq<UploadEntry>)
    ensures CountKind(files, Audio) + CountKind(files, Image) + CountKind(files, SheetMusic) + CountKind(files, Other) == |files|
    decreases |files|
  {
    if |files| > 0 {
      KindCountsSum(files[1..]);
    }
  }

  /** Pending, completed and failed entries are disjoint, so their counts add up to at most the total. */
  lemma {:induction false} StatusCountsBounded(files: seq<UploadEntry>)
    ensures CountStatus(files, Pending) + CountStatus(files, Success) + CountStatus(files, Failed) <= |files|
    decreases |files|
  {
    if |files| > 0 {
      StatusCountsBounded(files[1..]);
    }
  }

  /** Ids of the entries that are pending. */
  function PendingIds(s: seq<UploadEntry>): set<string> {
    set k | 0 <= k < |s| && s[k].status == Pending :: s[k].id
  }

  /** An entry after its upload: `success` at 100. */
  function Uploaded(e: UploadEntry): UploadEntry {
    e.(status := Success, progress := 100)
  }

  /** The queue after `uploadFiles` has visited the first `i` entries of the snapshot `s`:
      every entry sharing an id with a pending entry among them has been uploaded. */
  function Stage(s: seq<UploadEntry>, i: nat): (r: seq<UploadEntry>)
    requires i <= |s|
    ensures |r| == |s|
  {
    seq(|s|, k requires 0 <= k < |s| => if s[k].id in PendingIds(s[..i]) then Uploaded(s[k]) else s[k])
  }

  /** The queue `uploadFiles` leaves behind. */
  function AfterUpload(s: seq<UploadEntry>): (r: seq<UploadEntry>)
    ensures |r| == |s|
  {
    Stage(s, |s|)
  }

  lemma PendingIdsStep(s: seq<UploadEntry>, i: nat)
    requires i < |s|
    ensures PendingIds(s[..i + 1]) == PendingIds(s[..i]) + (if s[i].status == Pending then {s[i].id} else {})
  {
    var a, b := s[..i + 1], s[..i];
    assert forall k :: 0 <= k < i ==> a[k] == b[k];
    forall x | x in PendingIds(a)
      ensures x in PendingIds(b) + (if s[i].status == Pending then {s[i].id} else {})
    {
      var k :| 0 <= k < |a| && a[k].status == Pending && a[k].id == x;
      if k < i {
        assert b[k] == a[k];
      }
    }
  }

  /** After an upload every entry that was pending is `success` at 100, and an entry no pending
      entry shares an id with is exactly as before. */
  lemma UploadSettlesPending(s: seq<UploadEntry>, k: nat)
    requires k < |s|
    ensures s[k].status == Pending ==> AfterUpload(s)[k] == Uploaded(s[k])
    ensures s[k].id !in PendingIds(s) ==> AfterUpload(s)[k] == s[k]
  {
    assert s[..|s|] == s;
  }

  /** So nothing is left pending once `uploadFiles` has run. */
  lemma NoPendingAfterUpload(s: seq<UploadEntry>)
    ensures CountStatus(AfterUpload(s), Pending) == 0
  {
    var r := AfterUpload(s);
    forall k | 0 <= k < |r|
      ensures !HasStatus(Pending)(r[k])
    {
      UploadSettlesPending(s, k);
      if s[k].id !in PendingIds(s) {
        assert s[..|s|] == s;
        assert s[k].status != Pending;
      }
    }
    Seqs.FilterNone(r, HasStatus(Pending));
  }

  class UploadQueue {
    var files: seq<UploadEntry>
    var isUploading: bool

    ghost predicate Valid()
      reads this
    {
      ProgressOk(files)
    }

    constructor ()
      ensures Valid() && files == [] && !isUploading
    {
      files := [];
      isUploading := false;
    }

    /** `onDrop`: the new entries go after the existing ones, which are unchanged. */
    method OnDrop(accepted: seq<File>, ids: seq<string>)
      requires Valid() && |ids| == |accepted|
      modifies this
      ensures Valid() && isUploading == old(isUploading)
      ensures files == old(files) + NewEntries(accepted, ids)
    {
      files := files + NewEntries(accepted, ids);
    }

    /** `removeFile(id)`: exactly the entries with that id go, the others keep their order. */
    method RemoveFile(id: string)
      requires Valid()
      modifies this
      ensures Valid() && isUploading == old(isUploading)
      ensures files == Seqs.Filter(old(files), HasOtherId(id))
    {
      ProgressOkFilter(files, HasOtherId(id));
      files := Seqs.Filter(files, HasOtherId(id));
    }

    /** `clearCompleted`: exactly the `success` entries go. */
    method ClearCompleted()
      requires Valid()
      modifies this
      ensures Valid() && isUploading == old(isUploading)
      ensures files == Seqs.Filter(old(files), NotStatus(Success))
    {
      ProgressOkFilter(files, NotStatus(Success));
      files := Seqs.Filter(files, NotStatus(Success));
    }

    /** `clearAll`. */
    method ClearAll()
      modifies this
      ensures Valid() && files == [] && isUploading == old(isUploading)
    {
      files := [];
    }

    /** `uploadFiles`. The upload itself is simulated in the source, so no entry can fail. */
    method UploadFiles()
      requires Valid()
      modifies this
      ensures Valid() && !isUploading
      ensures files == AfterUpload(old(files))
    {
      isUploading := true;
      var snapshot := files;
      assert snapshot[..0] == [];
      assert files == Stage(snapshot, 0);
      var i := 0;
      while i < |snapshot|
        invariant 0 <= i <= |snapshot|
        invariant isUploading && Valid()
        invariant files == Stage(snapshot, i)
      {
        StageStep(snapshot, i);
        if snapshot[i].status == Pending {
          UploadOne(snapshot[i].id);
        }
        i := i + 1;
      }
      isUploading := false;
    }

    /** One iteration of the loop of `uploadFiles`: mark the entry `uploading`, step its
        progress through 0, 10, ..., 100, then mark it `success` at 100. */
    method UploadOne(id: string)
      requires Valid()
      modifies this
      ensures Valid() && isUploading == old(isUploading)
      ensures files == SetDone(old(files), id)
    {
      ghost var before := files;
      files := SetStatus(files, id, Uploading);
      var progress := 0;
      while progress <= 100
        invariant 0 <= progress <= 110 && progress % 10 == 0
        invariant Valid() && isUploading == old(isUploading)
        invariant |files| == |before|
        invariant forall k :: 0 <= k < |files| ==> files[k].id == before[k].id
        invariant forall k :: 0 <= k < |files| && before[k].id != id ==> files[k] == before[k]
        invariant forall k :: 0 <= k < |files| && before[k].id == id ==>
          files[k] == before[k].(status := Uploading, progress := if progress == 0 then before[k].progress else progress - 10)
      {
        files := SetProgress(files, id, progress);
        progress := progress + 10;
      }
      files := SetDone(files, id);
    }
  }

  /** Visiting entry `i` of the snapshot: a pending entry uploads every entry with its id;
      any other entry changes nothing. */
  lemma StageStep(s: seq<UploadEntry>, i: nat)
    requires i < |s|
    ensures s[i].status == Pending ==> Stage(s, i + 1) == SetDone(Stage(s, i), s[i].id)
    ensures s[i].status != Pending ==> Stage(s, i + 1) == Stage(s, i)
  {
    PendingIdsStep(s, i);
  }

  /** The state update `{ ...f, status }` applied to the entries with the given id. */
  function SetStatus(files: seq<UploadEntry>, id: string, st: UploadStatus): (r: seq<UploadEntry>)
    ensures |r| == |files|
    ensures forall k :: 0 <= k < |r| ==> r[k] == if files[k].id == id then files[k].(status := st) else files[k]
  {
    seq(|files|, k requires 0 <= k < |files| => if files[k].id == id then files[k].(status := st) else files[k])
  }

  /** `{ ...f, progress }` on the entries with the given id. */
  function SetProgress(files: seq<UploadEntry>, id: string, p: int): (r: seq<UploadEntry>)
    ensures |r| == |files|
    ensures forall k :: 0 <= k < |r| ==> r[k] == if files[k].id == id then files[k].(progress := p) else files[k]
  {
    seq(|files|, k requires 0 <= k < |files| => if files[k].id == id then files[k].(progress := p) else files[k])
  }

  /** `{ ...f, status: 'success', progress: 100 }` on the entries with the given id. */
  function SetDone(files: seq<UploadEntry>, id: string): (r: seq<UploadEntry>)
    ensures |r| == |files|
    ensures forall k :: 0 <= k < |r| ==> r[k] == if files[k].id == id then Uploaded(files[k]) else files[k]
  {
    seq(|files|, k requires 0 <= k < |files| => if files[k].id == id then Uploaded(files[k]) else files[k])
  }
}
