/** The `FileUpload` component (src/components/FileUpload.tsx): a list of dropped
    files, a progress table and a results table keyed by file id, and an
    upload loop that sends each file to the endpoint chosen by its MIME type.
    Whether the server accepts a file is an input of the upload. */
module FileUploadComponent {
  import opened Js
  import Seqs
  import opened FormData
  import Api
  import UploadPage

  /** A dropped file with the random id the component gives it. */
  datatype IdFile = IdFile(file: File, id: string)

  datatype UploadResult = Succeeded | Errored

  /** The endpoint `uploadFiles` posts a file to: audio, image and PDF have their own,
      everything else (MuseScore files included) goes to the general one. */
  function Endpoint(f: File): (e: string)
    ensures e == "/upload/audio/" <==> StartsWith(f.mime, "audio/")
    ensures e == "/upload/image/" <==> !StartsWith(f.mime, "audio/") && StartsWith(f.mime, "image/")
    ensures e == "/upload/sheet-music/" <==>
      (!StartsWith(f.mime, "audio/") && !StartsWith(f.mime, "image/") && f.mime == "application/pdf")
    ensures e in {"/upload/audio/", "/upload/image/", "/upload/sheet-music/", "/upload/general/"}
  {
    if StartsWith(f.mime, "audio/") then "/upload/audio/"
    else if StartsWith(f.mime, "image/") then "/upload/image/"
    else if f.mime == "application/pdf" then "/upload/sheet-music/"
    else "/upload/general/"
  }

  /** `getFileIcon`: audio, image and PDF by MIME type, then a case-sensitive
      `.mscz` / `.mscx` name, else the folder. */
  function FileIcon(f: File): (icon: string)
    ensures icon == "🎼" <==>
      (!StartsWith(f.mime, "audio/") && !StartsWith(f.mime, "image/") && f.mime != "application/pdf"
       && (EndsWith(f.name, ".mscz") || EndsWith(f.name, ".mscx")))
    ensures icon == "📁" <==>
      (!StartsWith(f.mime, "audio/") && !StartsWith(f.mime, "image/") && f.mime != "application/pdf"
       && !EndsWith(f.name, ".mscz") && !EndsWith(f.name, ".mscx"))
  {
    assert "🎼"[0] != "📁"[0] && "🎵"[0] != "📁"[0] && "🖼️"[0] != "📁"[0] && "📄"[0] != "📁"[0];
    assert "🎵"[0] != "🎼"[0] && "🖼️"[0] != "🎼"[0] && "📄"[0] != "🎼"[0];
    if StartsWith(f.mime, "audio/") then "🎵"
    else if StartsWith(f.mime, "image/") then "🖼️"
    else if f.mime == "application/pdf" then "📄"
    else if EndsWith(f.name, ".mscz") || EndsWith(f.name, ".mscx") then "🎼"
    else "📁"
  }

  /** A MuseScore file, which the browser reports as `application/octet-stream`, shows the score
      icon and counts as a score on the upload page, but is posted to the general endpoint. */
  lemma MuseScoreFileRouting(name: string)
    requires EndsWith(name, ".mscz")
    ensures var f := File(name, "application/octet-stream", 0);
      Endpoint(f) == "/upload/general/" && FileIcon(f) == "🎼"
      && UploadPage.GetFileType(f) == UploadPage.SheetMusic
  {
    var f := File(name, "application/octet-stream", 0);
    assert !StartsWith(f.mime, "audio/") && !StartsWith(f.mime, "image/") by {
      assert f.mime[..6][1] != "audio/"[1] && f.mime[..6][0] != "image/"[0];
    }
    assert EndsWith(Lower(name), ".mscz") by {
      var l := Lower(name);
      assert l[|l| - 5..] == Lower(name[|name| - 5..]);
    }
  }

  /** A table keyed by file id after writing `value(f)` under `f.id` for each `f` of `fs`, in order. */
  function TableAfter<V>(m: map<string, V>, fs: seq<IdFile>, value: IdFile -> V): map<string, V>
    decreases |fs|
  {
    if |fs| == 0 then m
    else TableAfter(m, fs[..|fs| - 1], value)[fs[|fs| - 1].id := value(fs[|fs| - 1])]
  }

  /** The `uploadFile` call `uploadFiles` makes for a file: the file alone, to its type's endpoint. */
  function UploadCall(f: IdFile): Api.Upload {
    Api.UploadFile(f.file, Endpoint(f.file))
  }

  /** The calls for `fs`, one per file and in order. */
  function UploadCalls(fs: seq<IdFile>): (calls: seq<Api.Upload>)
    ensures |calls| == |fs|
  {
    Seqs.Map(fs, UploadCall)
  }

  /** The `i`-th call is the one for the `i`-th file. */
  lemma UploadCallsAt(fs: seq<IdFile>, i: nat)
    requires i < |fs|
    ensures UploadCalls(fs)[i] == UploadCall(fs[i])
  {
    Seqs.MapAt(fs, UploadCall, i);
  }

  /** What `uploadFiles` records for a file in the results table. */
  function ResultOf(accepts: (File, string) -> bool): IdFile -> UploadResult {
    (f: IdFile) => if accepts(f.file, Endpoint(f.file)) then Succeeded else Errored
  }

  /** What it leaves in the progress table: 100 on success; a failed file keeps the 0 it started with. */
  function ProgressOf(accepts: (File, string) -> bool): IdFile -> int {
    (f: IdFile) => if accepts(f.file, Endpoint(f.file)) then 100 else 0
  }

  function Ids(fs: seq<IdFile>): set<string> {
    set f | f in fs :: f.id
  }

  ghost predicate DistinctIds(fs: seq<IdFile>) {
    forall i, j :: 0 <= i < j < |fs| ==> fs[i].id != fs[j].id
  }

  lemma TableAfterSnoc<V>(m: map<string, V>, fs: seq<IdFile>, f: IdFile, value: IdFile -> V)
    ensures TableAfter(m, fs + [f], value) == TableAfter(m, fs, value)[f.id := value(f)]
  {
    assert (fs + [f])[..|fs|] == fs;
  }

  lemma TableAfterPrefix<V>(m: map<string, V>, fs: seq<IdFile>, i: nat, value: IdFile -> V)
    requires i < |fs|
    ensures TableAfter(m, fs[..i + 1], value) == TableAfter(m, fs[..i], value)[fs[i].id := value(fs[i])]
  {
    assert fs[..i + 1] == fs[..i] + [fs[i]];
    TableAfterSnoc(m, fs[..i], fs[i], value);
  }

  /** With distinct ids, every file's id holds its own value afterwards, and an id that is not
      uploaded keeps its entry, or its absence. */
  lemma {:induction false} TableAfterAt<V>(m: map<string, V>, fs: seq<IdFile>, value: IdFile -> V)
    requires DistinctIds(fs)
    ensures forall k :: 0 <= k < |fs| ==> fs[k].id in TableAfter(m, fs, value) && TableAfter(m, fs, value)[fs[k].id] == value(fs[k])
    ensures forall id :: id !in Ids(fs) ==> (id in TableAfter(m, fs, value) <==> id in m)
    ensures forall id :: id !in Ids(fs) && id in m ==> TableAfter(m, fs, value)[id] == m[id]
    decreases |fs|
  {
    if |fs| > 0 {
      var init, last := fs[..|fs| - 1], fs[|fs| - 1];
      assert DistinctIds(init);
      TableAfterAt(m, init, value);
      var t := TableAfter(m, fs, value);
      assert t == TableAfter(m, init, value)[last.id := value(last)];
      forall k | 0 <= k < |fs|
        ensures fs[k].id in t && t[fs[k].id] == value(fs[k])
      {
        if k < |fs| - 1 {
          assert init[k] == fs[k];
          assert fs[k].id != last.id;
        }
      }
      assert last in fs;
      assert forall g :: g in init ==> g in fs;
      assert Ids(init) <= Ids(fs) && last.id in Ids(fs);
    }
  }

  /** So after an upload of files with distinct ids, a file's result is `success` exactly when the
      server accepted it, and its progress is 100 then and 0 otherwise. */
  lemma UploadOutcome(results: map<string, UploadResult>, progress: map<string, int>, fs: seq<IdFile>, accepts: (File, string) -> bool, k: nat)
    requires DistinctIds(fs) && k < |fs|
    ensures fs[k].id in TableAfter(results, fs, ResultOf(accepts)) && fs[k].id in TableAfter(progress, fs, ProgressOf(accepts))
    ensures var ok := accepts(fs[k].file, Endpoint(fs[k].file));
      TableAfter(results, fs, ResultOf(accepts))[fs[k].id] == (if ok then Succeeded else Errored)
      && TableAfter(progress, fs, ProgressOf(accepts))[fs[k].id] == (if ok then 100 else 0)
  {
    TableAfterAt(results, fs, ResultOf(accepts));
    TableAfterAt(progress, fs, ProgressOf(accepts));
  }

  class FileUpload {
    var files: seq<IdFile>
    var uploading: bool
    var progress: map<string, int>
    var results: map<string, UploadResult>

    constructor ()
      ensures files == [] && !uploading && progress == map[] && results == map[]
    {
      files := [];
      uploading := false;
      progress := map[];
      results := map[];
    }

    /** `onDrop`: the new files, with their ids, go after the existing ones. */
    method OnDrop(accepted: seq<File>, ids: seq<string>)
      requires |ids| == |accepted|
      modifies this
      ensures |files| == |old(files)| + |accepted| && files[..|old(files)|] == old(files)
      ensures forall i :: 0 <= i < |accepted| ==> files[|old(files)| + i] == IdFile(accepted[i], ids[i])
      ensures progress == old(progress) && results == old(results) && uploading == old(uploading)
    {
      files := files + seq(|accepted|, i requires 0 <= i < |accepted| => IdFile(accepted[i], ids[i]));
    }

    /** `removeFile(id)`: the id leaves the list and both tables; nothing else changes. */
    method RemoveFile(id: string)
      modifies this
      ensures files == Seqs.Filter(old(files), (f: IdFile) => f.id != id)
      ensures progress == old(progress) - {id} && results == old(results) - {id}
      ensures uploading == old(uploading)
    {
      files := Seqs.Filter(files, (f: IdFile) => f.id != id);
      progress := progress - {id};
      results := results - {id};
    }

    /** `clearAll`. */
    method ClearAll()
      modifies this
      ensures files == [] && progress == map[] && results == map[] && uploading == old(uploading)
    {
      files := [];
      progress := map[];
      results := map[];
    }

    /** `uploadFiles`: nothing at all for an empty list; otherwise one `uploadFile` call per
        file, in order, each to its type's endpoint, recording progress and result. */
    method UploadFiles(accepts: (File, string) -> bool) returns (calls: seq<Api.Upload>)
      modifies this
      ensures files == old(files)
      ensures old(files) == [] ==> calls == [] && progress == old(progress) && results == old(results) && uploading == old(uploading)
      ensures old(files) != [] ==> !uploading
      ensures calls == UploadCalls(files)
      ensures results == TableAfter(old(results), files, ResultOf(accepts))
      ensures progress == TableAfter(old(progress), files, ProgressOf(accepts))
    {
      calls := [];
      if |files| == 0 {
        return;
      }
      var fs := files;
      ghost var results0, progress0 := results, progress;
      uploading := true;
      var i := 0;
      while i < |fs|
        invariant 0 <= i <= |fs| && files == fs
        invariant calls == UploadCalls(fs[..i])
        invariant results == TableAfter(results0, fs[..i], ResultOf(accepts))
        invariant progress == TableAfter(progress0, fs[..i], ProgressOf(accepts))
      {
        var f := fs[i];
        var call := UploadOne(f, accepts);
        calls := calls + [call];
        Seqs.MapPrefix(fs, UploadCall, i);
        TableAfterPrefix(results0, fs, i, ResultOf(accepts));
        TableAfterPrefix(progress0, fs, i, ProgressOf(accepts));
        i := i + 1;
      }
      assert fs[..i] == fs;
      uploading := false;
    }

    /** One pass of the loop in `uploadFiles`: progress starts at 0, the file is posted to its
        endpoint, and on success progress becomes 100 and the result `success`, else `error`. */
    method UploadOne(f: IdFile, accepts: (File, string) -> bool) returns (call: Api.Upload)
      modifies this
      ensures call == UploadCall(f)
      ensures results == old(results)[f.id := ResultOf(accepts)(f)]
      ensures progress == old(progress)[f.id := ProgressOf(accepts)(f)]
      ensures files == old(files) && uploading == old(uploading)
    {
      progress := progress[f.id := 0];
      var endpoint := "/upload/general/";
      if StartsWith(f.file.mime, "audio/") {
        endpoint := "/upload/audio/";
      } else if StartsWith(f.file.mime, "image/") {
        endpoint := "/upload/image/";
      } else if f.file.mime == "application/pdf" {
        endpoint := "/upload/sheet-music/";
      }
      call := Api.UploadFile(f.file, endpoint);
      if accepts(f.file, endpoint) {
        progress := progress[f.id := 100];
        results := results[f.id := Succeeded];
      } else {
        results := results[f.id := Errored];
      }
    }
  }
}
