/**
 * The project catalog service: two-phase create, update with image reconciliation,
 * best-effort cascading delete, reads by id and by page. The document store and the blob
 * store are the fields of `Backend`; uploads are an oracle that names the URL of each file.
 */
module ProjectService {
  import opened Common
  import opened Projects

  /** The blob store's answer to an upload: the download URL of file `index` uploaded for a project. */
  type Uploader = (string, nat, File) -> string

  /** A side effect issued against the stores, in the order the service issues them. */
  datatype Effect =
    | AddDoc(id: string, doc: Doc)
    | UpdateDoc(id: string, patch: Patch)
    | DeleteDoc(id: string)
    | PutBlob(url: string)
    | RemoveBlob(url: string, removed: bool)   // removed == false: the deletion threw and was swallowed

  /** Message of the TypeError thrown when a timestamp field is missing and `toDate` is called on it. */
  const ToDateError := "Cannot read properties of undefined (reading 'toDate')"

  /**
   * Progress reported once file `index` of `count` is uploaded: Math.round((index + 1) / count * 100),
   * computed exactly as floor((index + 1) * 100 / count + 1/2).
   */
  function UploadProgress(index: nat, count: nat): (pct: nat)
    requires index < count
    ensures pct <= 100
    ensures index == count - 1 ==> pct == 100
  {
    ProgressBounds(index, count);
    (200 * (index + 1) + count) / (2 * count)
  }

  lemma ProgressBounds(index: nat, count: nat)
    requires index < count
    ensures (200 * (index + 1) + count) / (2 * count) <= 100
    ensures index == count - 1 ==> (200 * (index + 1) + count) / (2 * count) == 100
  {
    assert 200 * (index + 1) + count < 2 * count * (100 + 1);
    DivBound(200 * (index + 1) + count, 2 * count, 100);
    if index == count - 1 {
      UniqueDiv(200 * (index + 1) + count, 2 * count, 100);
    }
  }

  lemma {:induction false} MulLeMono(d: nat, a: int, b: int)
    ensures a <= b ==> d * a <= d * b
  {
    if d > 0 {
      MulLeMono(d - 1, a, b);
      assert d * a == (d - 1) * a + a;
      assert d * b == (d - 1) * b + b;
    }
  }

  lemma MulSucc(d: nat, a: int)
    ensures d * (a + 1) == d * a + d
  {
  }

  lemma UniqueDiv(x: nat, d: nat, q: nat)
    requires d > 0 && d * q <= x < d * q + d
    ensures x / d == q
  {
    var k := x / d;
    assert x == d * k + x % d;
    MulSucc(d, k);
    MulSucc(d, q);
    MulLeMono(d, k + 1, q);
    MulLeMono(d, q + 1, k);
  }

  lemma DivBound(x: nat, d: nat, q: nat)
    requires d > 0 && x < d * (q + 1)
    ensures x / d <= q
  {
    var k := x / d;
    assert x == d * k + x % d;
    MulLeMono(d, q + 1, k);
  }

  lemma DivMonotone(a: nat, b: nat, d: nat)
    requires d > 0 && a <= b
    ensures a / d <= b / d
  {
    var k, l := a / d, b / d;
    assert a == d * k + a % d;
    assert b == d * l + b % d;
    MulSucc(d, l);
    MulLeMono(d, l + 1, k);
  }

  /** The reports of one batch never decrease from one file to the next. */
  lemma UploadProgressMonotone(i: nat, j: nat, count: nat)
    requires i <= j < count
    ensures UploadProgress(i, count) <= UploadProgress(j, count)
  {
    DivMonotone(200 * (i + 1) + count, 200 * (j + 1) + count, 2 * count);
  }

  /** The URLs of a batch upload, in file order whatever the order in which uploads complete. */
  function UploadedUrls(files: seq<File>, projectId: string, upload: Uploader): (urls: seq<string>)
    ensures |urls| == |files|
    ensures forall i :: 0 <= i < |files| ==> urls[i] == upload(projectId, i, files[i])
  {
    seq(|files|, i requires 0 <= i < |files| => upload(projectId, i, files[i]))
  }

  function PutEffects(urls: seq<string>): seq<Effect>
  {
    seq(|urls|, i requires 0 <= i < |urls| => PutBlob(urls[i]))
  }

  /** Some file among the first `n` of a batch fails to upload, which rejects the whole batch. */
  predicate AnyUploadFails(n: nat, failing: set<nat>) {
    exists k: nat :: k < n && k in failing
  }

  /**
   * The URLs of the files among the first `n` whose upload succeeds, in file order. A rejected
   * upload cancels none of the others, so these blobs exist whether or not the batch rejects.
   */
  function StoredUrls(files: seq<File>, projectId: string, upload: Uploader, failing: set<nat>, n: nat)
    : (urls: seq<string>)
    requires n <= |files|
    ensures |urls| <= n
    ensures !AnyUploadFails(n, failing) ==> urls == UploadedUrls(files[..n], projectId, upload)
    decreases n
  {
    if n == 0 then []
    else
      var prev := StoredUrls(files, projectId, upload, failing, n - 1);
      var url := upload(projectId, n - 1, files[n - 1]);
      assert AnyUploadFails(n - 1, failing) ==> AnyUploadFails(n, failing);
      assert UploadedUrls(files[..n], projectId, upload) == UploadedUrls(files[..n - 1], projectId, upload) + [url];
      if n - 1 in failing then prev else prev + [url]
  }

  /** The blobs left by a batch are exactly the URLs of its files that uploaded. */
  lemma {:induction false} StoredUrlsMembers(files: seq<File>, projectId: string, upload: Uploader,
                                             failing: set<nat>, n: nat, u: string)
    requires n <= |files|
    ensures u in StoredUrls(files, projectId, upload, failing, n) <==>
      exists k: nat :: k < n && k !in failing && u == upload(projectId, k, files[k])
    decreases n
  {
    if n > 0 {
      StoredUrlsMembers(files, projectId, upload, failing, n - 1, u);
      var url := upload(projectId, n - 1, files[n - 1]);
      if u == url && n - 1 !in failing {
        assert u in StoredUrls(files, projectId, upload, failing, n);
      }
    }
  }

  /** One more file of the batch: its URL and report are appended exactly when its upload succeeds. */
  lemma UploadStep(files: seq<File>, projectId: string, upload: Uploader, failing: set<nat>, i: nat)
    requires i < |files|
    ensures var url := upload(projectId, i, files[i]);
      StoredUrls(files, projectId, upload, failing, i + 1)
      == StoredUrls(files, projectId, upload, failing, i) + (if i in failing then [] else [url])
    ensures Reports(|files|, failing, i + 1)
      == Reports(|files|, failing, i) + (if i in failing then [] else [UploadProgress(i, |files|)])
    ensures AnyUploadFails(i + 1, failing) <==> AnyUploadFails(i, failing) || i in failing
  {
    if i in failing {
      assert AnyUploadFails(i + 1, failing);
    }
  }

  /** The progress reports for the first `n` files of a batch of `count`: one per successful upload, in file order. */
  function Reports(count: nat, failing: set<nat>, n: nat): (pcts: seq<nat>)
    requires n <= count
    ensures |pcts| <= n
    ensures !AnyUploadFails(n, failing) ==>
      |pcts| == n && forall i :: 0 <= i < n ==> pcts[i] == UploadProgress(i, count)
    decreases n
  {
    if n == 0 then []
    else
      var prev := Reports(count, failing, n - 1);
      assert AnyUploadFails(n - 1, failing) ==> AnyUploadFails(n, failing);
      if n - 1 in failing then prev else prev + [UploadProgress(n - 1, count)]
  }

  /**
   * `urls[index] || urls[0]`: the entry at `index` when it exists and is a non-empty string,
   * otherwise the first entry.
   */
  function PrimaryImageUrl(urls: seq<string>, index: int): (url: string)
    requires |urls| > 0
    ensures url in urls
    ensures 0 <= index < |urls| && urls[index] != "" ==> url == urls[index]
    ensures !(0 <= index < |urls|) || urls[index] == "" ==> url == urls[0]
  {
    if 0 <= index < |urls| && urls[index] != "" then urls[index] else urls[0]
  }

  /** The document create writes first, before any upload, so that an identifier exists. */
  function InitialDoc(data: ProjectData, now: Time): (d: Doc)
    ensures d.images == Some([]) && d.imageUrl == ""
    ensures d.createdAt == Some(now) && d.updatedAt == d.createdAt
    ensures data.githubUrl.None? ==> d.githubUrl == Some("")
    ensures data.liveUrl.None? ==> d.liveUrl == Some("")
    ensures data.githubUrl.Some? ==> d.githubUrl == data.githubUrl
    ensures data.liveUrl.Some? ==> d.liveUrl == data.liveUrl
    ensures d.featured == Some(data.featured == Some(true))
    ensures d.primaryImageIndex == Some(data.primaryImageIndex)
  {
    assert data.featured.GetOr(false) == (data.featured == Some(true));
    Doc(data.title, data.description, "", Some([]), Some(data.primaryImageIndex),
        Some(data.technologies), Some(data.githubUrl.GetOr("")), Some(data.liveUrl.GetOr("")),
        Some(data.featured.GetOr(false)), Some(now), Some(now))
  }

  /** The second write of create, once the files are uploaded. It stamps no `updatedAt`. */
  function CreatePatch(data: ProjectData, urls: seq<string>): (p: Patch)
    requires |urls| > 0
    ensures p.updatedAt.None?
    ensures p.fields.images == Some(urls) && p.fields.primaryImageIndex == Some(data.primaryImageIndex)
    ensures p.fields.imageUrl.Some? && p.fields.imageUrl.value in urls
    ensures 0 <= data.primaryImageIndex < |urls| && urls[data.primaryImageIndex] != ""
            ==> p.fields.imageUrl == Some(urls[data.primaryImageIndex])
    ensures p.fields == NoFields.(images := p.fields.images, imageUrl := p.fields.imageUrl,
                                  primaryImageIndex := p.fields.primaryImageIndex)
  {
    var p := data.primaryImageIndex;
    Patch(NoFields.(images := Some(urls), imageUrl := Some(PrimaryImageUrl(urls, p)),
                    primaryImageIndex := Some(p)), None)
  }

  /** The stored document once create has finished, given the URLs its files were uploaded to. */
  function CreatedDoc(data: ProjectData, urls: seq<string>, now: Time): (d: Doc)
    ensures d.images == Some(urls)
    ensures d.createdAt == Some(now) && d.updatedAt == Some(now)
    ensures d.primaryImageIndex == Some(data.primaryImageIndex)
    ensures |urls| == 0 ==> d.imageUrl == ""
    ensures |urls| > 0 ==> d.imageUrl in urls
    ensures 0 <= data.primaryImageIndex < |urls| && urls[data.primaryImageIndex] != ""
            ==> d.imageUrl == urls[data.primaryImageIndex]
    ensures d.githubUrl.Some? && d.liveUrl.Some?
    ensures d.featured == Some(data.featured == Some(true))
    ensures d.title == data.title && d.description == data.description
    ensures d.technologies == Some(data.technologies)
  {
    assert data.featured.GetOr(false) == (data.featured == Some(true));
    if |urls| == 0 then InitialDoc(data, now)
    else ApplyPatch(InitialDoc(data, now), CreatePatch(data, urls))
  }

  /**
   * The patch update writes. With new uploads, `images` becomes the kept URLs followed by the
   * new ones and `imageUrl` is re-derived from the requested primary index (0 when absent);
   * without them the supplied fields pass through untouched. `existingImages` is never written
   * and `updatedAt` is always stamped.
   */
  function UpdatePatch(u: Updates, newUrls: seq<string>, now: Time): (p: Patch)
    ensures p.updatedAt == Some(now)
    ensures |newUrls| == 0 ==> p.fields == u.fields
    ensures |newUrls| > 0 ==>
      var all := u.existingImages.GetOr([]) + newUrls;
      && p.fields.images == Some(all)
      && p.fields.imageUrl == Some(PrimaryImageUrl(all, u.fields.primaryImageIndex.GetOr(0)))
      && p.fields == u.fields.(images := p.fields.images, imageUrl := p.fields.imageUrl)
  {
    if |newUrls| == 0 then Patch(u.fields, Some(now))
    else
      var all := u.existingImages.GetOr([]) + newUrls;
      var primary := if u.fields.primaryImageIndex.Some? then u.fields.primaryImageIndex.value else 0;
      Patch(u.fields.(images := Some(all), imageUrl := Some(PrimaryImageUrl(all, primary))), Some(now))
  }

  /** The blobs delete removes: every image when `images` is a non-empty array, else the legacy `imageUrl` if set. */
  function BlobsOf(d: Doc): (urls: seq<string>)
    ensures d.images.Some? && |d.images.value| > 0 ==> urls == d.images.value
    ensures forall u :: u in urls ==> (d.images.Some? && u in d.images.value) || u == d.imageUrl
    ensures |urls| == 0 <==> (d.images.None? || |d.images.value| == 0) && d.imageUrl == ""
  {
    if d.images.Some? && |d.images.value| > 0 then d.images.value
    else if d.imageUrl != "" then [d.imageUrl]
    else []
  }

  /**
   * The effects of deleting `urls` one after another from a blob store holding `blobs`: a URL is
   * removed when it is present and its deletion does not fail; otherwise the error is swallowed.
   */
  function DeleteEffects(urls: seq<string>, blobs: set<string>, failing: set<string>): (e: seq<Effect>)
    ensures |e| == |urls|
    ensures forall i :: 0 <= i < |urls| ==> e[i].RemoveBlob? && e[i].url == urls[i]
  {
    if |urls| == 0 then []
    else
      var removed := urls[0] in blobs && urls[0] !in failing;
      [RemoveBlob(urls[0], removed)]
      + DeleteEffects(urls[1..], if urls[0] !in failing then blobs - {urls[0]} else blobs, failing)
  }

  /** The blob store left after deleting `urls` one after another, failures swallowed. */
  function RemainingBlobs(urls: seq<string>, blobs: set<string>, failing: set<string>): set<string>
  {
    if |urls| == 0 then blobs
    else RemainingBlobs(urls[1..], if urls[0] !in failing then blobs - {urls[0]} else blobs, failing)
  }

  /** Every URL whose deletion does not fail is gone afterwards; nothing else is touched. */
  lemma {:induction false} RemainingBlobsRemovesNonFailing(urls: seq<string>, blobs: set<string>, failing: set<string>)
    ensures RemainingBlobs(urls, blobs, failing) == blobs - (set u | u in urls && u !in failing)
  {
    if |urls| > 0 {
      var next := if urls[0] !in failing then blobs - {urls[0]} else blobs;
      RemainingBlobsRemovesNonFailing(urls[1..], next, failing);
      assert forall u :: u in urls <==> u == urls[0] || u in urls[1..];
    }
  }

  /** One deletion step of DeleteEffects and RemainingBlobs. */
  lemma StepDelete(urls: seq<string>, blobs: set<string>, failing: set<string>)
    requires |urls| > 0
    ensures var next := if urls[0] !in failing then blobs - {urls[0]} else blobs;
      && DeleteEffects(urls, blobs, failing)
         == [RemoveBlob(urls[0], urls[0] in blobs && urls[0] !in failing)] + DeleteEffects(urls[1..], next, failing)
      && RemainingBlobs(urls, blobs, failing) == RemainingBlobs(urls[1..], next, failing)
  {
  }

  lemma AppendAssoc<T>(a: seq<T>, b: seq<T>, c: seq<T>)
    ensures a + (b + c) == (a + b) + c
  {
  }

  /** One iteration of the deletion loop: deleting `urls[i]` moves one effect from the rest to `done`. */
  lemma DeleteLoopStep(urls: seq<string>, i: nat, blobs: set<string>, failing: set<string>, done: seq<Effect>)
    requires i < |urls|
    ensures var url := urls[i];
      var next := if url !in failing then blobs - {url} else blobs;
      && RemainingBlobs(urls[i..], blobs, failing) == RemainingBlobs(urls[i + 1..], next, failing)
      && done + DeleteEffects(urls[i..], blobs, failing)
         == (done + [RemoveBlob(url, url in blobs && url !in failing)]) + DeleteEffects(urls[i + 1..], next, failing)
  {
    var url := urls[i];
    var next := if url !in failing then blobs - {url} else blobs;
    StepDelete(urls[i..], blobs, failing);
    assert urls[i..][1..] == urls[i + 1..];
    AppendAssoc(done, [RemoveBlob(url, url in blobs && url !in failing)], DeleteEffects(urls[i + 1..], next, failing));
  }

  predicate HasTimestamps(d: Doc) { d.createdAt.Some? && d.updatedAt.Some? }

  /**
   * `{ id, ...data, createdAt: data.createdAt.toDate(), updatedAt: data.updatedAt.toDate() }`:
   * the document unchanged, or the error thrown when a timestamp is missing.
   */
  function Converted(pd: ProjectDoc): (r: Result<ProjectDoc>)
    ensures r.Ok? <==> HasTimestamps(pd.data)
    ensures r.Ok? ==> r.value == pd
  {
    if HasTimestamps(pd.data) then Ok(pd) else Err(ToDateError)
  }

  /**
   * getProjects after its query has run: converts each returned document in order and takes
   * the last one as the cursor for the next page, or none when the page is empty.
   */
  method ReadPage(snapshot: seq<ProjectDoc>) returns (r: Result<Page>)
    ensures r.Ok? <==> forall i :: 0 <= i < |snapshot| ==> HasTimestamps(snapshot[i].data)
    ensures r.Ok? ==> r.value.projects == snapshot
    ensures r.Ok? ==> r.value.lastVisible == if |snapshot| == 0 then None else Some(snapshot[|snapshot| - 1])
  {
    var projects: seq<ProjectDoc> := [];
    var i := 0;
    while i < |snapshot|
      invariant 0 <= i <= |snapshot|
      invariant projects == snapshot[..i]
      invariant forall k :: 0 <= k < i ==> HasTimestamps(snapshot[k].data)
    {
      var converted := Converted(snapshot[i]);
      if converted.Err? {
        return Err(converted.message);
      }
      projects := projects + [converted.value];
      i := i + 1;
    }
    var last := if |snapshot| == 0 then None else Some(snapshot[|snapshot| - 1]);
    r := Ok(Page(projects, last));
  }

  /** The document store, the blob store and the ordered record of what was issued against them. */
  class Backend {
    var docs: map<string, Doc>
    var blobs: set<string>
    var log: seq<Effect>

    constructor (docs0: map<string, Doc>, blobs0: set<string>)
      ensures docs == docs0 && blobs == blobs0 && log == []
    {
      docs, blobs, log := docs0, blobs0, [];
    }

    /** getProjectById: none when the document does not exist, else the converted document. */
    function GetProjectById(id: string): (r: Result<Option<ProjectDoc>>)
      reads this
      ensures id !in docs <==> r == Ok(None)
      ensures id in docs ==> (r.Ok? <==> HasTimestamps(docs[id]))
      ensures id in docs && r.Ok? ==> r.value == Some(ProjectDoc(id, docs[id]))
    {
      if id !in docs then Ok(None)
      else match Converted(ProjectDoc(id, docs[id]))
        case Ok(pd) => Ok(Some(pd))
        case Err(m) => Err(m)
    }

    /**
     * uploadProjectImages: uploads the files one by one under the project's namespace, reporting
     * progress after each successful file. The batch answers the URLs in file order, or rejects
     * when any file in `failing` fails; the files that did upload stay in the blob store either way.
     */
    method UploadImages(files: seq<File>, projectId: string, upload: Uploader, failing: set<nat>)
      returns (urls: Option<seq<string>>, progress: seq<nat>)
      modifies this
      ensures urls.None? <==> AnyUploadFails(|files|, failing)
      ensures urls.Some? ==> urls.value == UploadedUrls(files, projectId, upload)
      ensures progress == Reports(|files|, failing, |files|)
      ensures var stored := StoredUrls(files, projectId, upload, failing, |files|);
        && docs == old(docs) && blobs == old(blobs) + (set u | u in stored)
        && log == old(log) + PutEffects(stored)
    {
      var stored: seq<string> := [];
      var failed := false;
      progress := [];
      var i := 0;
      while i < |files|
        modifies {}
        invariant 0 <= i <= |files|
        invariant failed == AnyUploadFails(i, failing)
        invariant stored == StoredUrls(files, projectId, upload, failing, i)
        invariant progress == Reports(|files|, failing, i)
      {
        UploadStep(files, projectId, upload, failing, i);
        if i in failing {
          failed := true;
        } else {
          var url := upload(projectId, i, files[i]);
          stored := stored + [url];
          progress := progress + [UploadProgress(i, |files|)];
        }
        i := i + 1;
      }
      assert files[..i] == files;
      blobs := blobs + (set u | u in stored);
      log := log + PutEffects(stored);
      urls := if failed then None else Some(stored);
    }

    /**
     * createProject: writes the placeholder document, then, only when files are given, uploads
     * them and patches `images`, `imageUrl` and `primaryImageIndex`. A rejected upload ends it
     * after the placeholder is written, so the placeholder stays as it is.
     */
    method CreateProject(data: ProjectData, files: seq<File>, now: Time, newId: string, upload: Uploader,
                         failing: set<nat>)
      returns (id: string, ok: bool, progress: seq<nat>)
      requires newId !in docs   // the store hands out a fresh identifier
      modifies this
      ensures id == newId
      ensures ok <==> !AnyUploadFails(|files|, failing)
      ensures progress == Reports(|files|, failing, |files|)
      ensures ok ==> |progress| == |files| && forall i :: 0 <= i < |files| ==> progress[i] == UploadProgress(i, |files|)
      ensures docs == old(docs)[id := if ok then CreatedDoc(data, UploadedUrls(files, id, upload), now)
                                     else InitialDoc(data, now)]
      ensures blobs == old(blobs) + (set u | u in StoredUrls(files, id, upload, failing, |files|))
      ensures log == old(log) + [AddDoc(id, InitialDoc(data, now))]
                  + (if |files| == 0 then []
                     else PutEffects(StoredUrls(files, id, upload, failing, |files|))
                          + (if ok then [UpdateDoc(id, CreatePatch(data, UploadedUrls(files, id, upload)))] else []))
    {
      id := newId;
      var initial := InitialDoc(data, now);
      docs := docs[id := initial];
      log := log + [AddDoc(id, initial)];
      progress := [];
      ok := true;
      if |files| > 0 {
        var urls;
        urls, progress := UploadImages(files, id, upload, failing);
        ok := urls.Some?;
        if ok {
          var patch := CreatePatch(data, urls.value);
          docs := docs[id := ApplyPatch(initial, patch)];
          assert docs == old(docs)[id := CreatedDoc(data, urls.value, now)];
          log := log + [UpdateDoc(id, patch)];
        }
      } else {
        assert !AnyUploadFails(0, failing);
      }
    }

    /**
     * updateProject: uploads any new files, then writes the patch computed by UpdatePatch. A
     * rejected upload ends it before the write, keeping the blobs already uploaded; the write
     * fails, after the uploads, when the document does not exist.
     */
    method UpdateProject(id: string, updates: Updates, files: seq<File>, now: Time, upload: Uploader,
                         failing: set<nat>)
      returns (ok: bool, progress: seq<nat>)
      modifies this
      ensures var failed := AnyUploadFails(|files|, failing);
        var urls := UploadedUrls(files, id, upload);
        var stored := StoredUrls(files, id, upload, failing, |files|);
        var patch := UpdatePatch(updates, urls, now);
        && ok == (!failed && id in old(docs))
        && docs == (if ok then old(docs)[id := ApplyPatch(old(docs)[id], patch)] else old(docs))
        && blobs == old(blobs) + (set u | u in stored)
        && log == old(log) + PutEffects(stored) + (if failed then [] else [UpdateDoc(id, patch)])
      ensures progress == Reports(|files|, failing, |files|)
    {
      var urls: seq<string> := [];
      progress := [];
      if |files| > 0 {
        var result;
        result, progress := UploadImages(files, id, upload, failing);
        if result.None? {
          return false, progress;
        }
        urls := result.value;
      } else {
        assert UploadedUrls(files, id, upload) == [];
      }
      var patch := UpdatePatch(updates, urls, now);
      log := log + [UpdateDoc(id, patch)];
      ok := id in docs;
      if ok {
        docs := docs[id := ApplyPatch(docs[id], patch)];
      }
    }

    /** deleteProjectImages: tries every URL; a failed deletion is logged and swallowed. */
    method DeleteImages(urls: seq<string>, failing: set<string>)
      modifies this
      ensures docs == old(docs)
      ensures blobs == old(blobs) - (set u | u in urls && u !in failing)
      ensures log == old(log) + DeleteEffects(urls, old(blobs), failing)
    {
      ghost var done: seq<Effect> := [];
      var store, effects := blobs, log;
      ghost var target := DeleteEffects(urls, store, failing);
      ghost var remaining := RemainingBlobs(urls, store, failing);
      var i := 0;
      while i < |urls|
        modifies {}
        invariant 0 <= i <= |urls|
        invariant effects == log + done
        invariant remaining == RemainingBlobs(urls[i..], store, failing)
        invariant target == done + DeleteEffects(urls[i..], store, failing)
      {
        var url := urls[i];
        var removed := url in store && url !in failing;
        var next := if url !in failing then store - {url} else store;
        DeleteLoopStep(urls, i, store, failing, done);
        AppendAssoc(log, done, [RemoveBlob(url, removed)]);
        done := done + [RemoveBlob(url, removed)];
        effects := effects + [RemoveBlob(url, removed)];
        store := next;
        i := i + 1;
      }
      assert urls[i..] == [];
      RemainingBlobsRemovesNonFailing(urls, blobs, failing);
      blobs, log := store, effects;
    }

    /**
     * deleteProject: removes the document's blobs first (best effort), then deletes the document,
     * which happens in every case, also when the document does not exist.
     */
    method DeleteProject(id: string, failing: set<string>)
      modifies this
      ensures var urls := if id in old(docs) then BlobsOf(old(docs)[id]) else [];
        && docs == old(docs) - {id}
        && blobs == old(blobs) - (set u | u in urls && u !in failing)
        && log == old(log) + DeleteEffects(urls, old(blobs), failing) + [DeleteDoc(id)]
    {
      var urls: seq<string> := [];
      if id in docs {
        urls := BlobsOf(docs[id]);
      }
      DeleteImages(urls, failing);
      docs := docs - {id};
      log := log + [DeleteDoc(id)];
    }
  }

  /** Update without new files and with no fields supplied changes nothing but `updatedAt`. */
  lemma UpdateWithoutChangesKeepsImages(d: Doc, kept: Option<seq<string>>, now: Time)
    ensures ApplyPatch(d, UpdatePatch(Updates(NoFields, kept), [], now)) == d.(updatedAt := Some(now))
  {
  }

  /**
   * Update without new files does not re-derive `imageUrl` from a new primary index: after a
   * create with two uploads and primary 1, an update that only sets primary 0 and lists both
   * URLs as kept still points at the second image, unless the caller also sends `imageUrl`.
   */
  lemma {:induction false} UpdateWithoutFilesKeepsImageUrl(data: ProjectData, a: string, b: string, t0: Time, t1: Time)
    requires data.primaryImageIndex == 1 && a != "" && b != ""
    ensures var created := CreatedDoc(data, [a, b], t0);
      var updated := ApplyPatch(created, UpdatePatch(Updates(NoFields.(primaryImageIndex := Some(0)), Some([a, b])), [], t1));
      && created.images == Some([a, b]) && created.imageUrl == b
      && updated.primaryImageIndex == Some(0) && updated.imageUrl == b
  {
    var created := CreatedDoc(data, [a, b], t0);
    assert created.imageUrl == b;
  }

  /** Update with new files: kept URLs first, uploads after them, in upload order. */
  lemma UpdateReconcilesImages(u: Updates, newUrls: seq<string>, now: Time, i: nat)
    requires |newUrls| > 0 && i < |newUrls|
    ensures var imgs := UpdatePatch(u, newUrls, now).fields.images.value;
      && |imgs| == |u.existingImages.GetOr([])| + |newUrls|
      && imgs[..|u.existingImages.GetOr([])|] == u.existingImages.GetOr([])
      && imgs[|u.existingImages.GetOr([])| + i] == newUrls[i]
  {
  }
}
