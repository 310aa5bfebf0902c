/**
 * The project editor: the form fields, the technology list, the image items (stored images first,
 * then newly chosen files with their preview URLs) with a primary index, and the submit step that
 * splits the items into the payload the catalog service receives.
 */
module ProjectEditor {
  import opened Common
  import opened Projects
  import opened ProjectService

  /** An image in the editor: a stored URL (not new, no file) or a chosen file with its data URL. */
  datatype ImageItem = ImageItem(file: Option<File>, url: string, isNew: bool)

  /** The editor's form fields. */
  datatype FormData = FormData(
    title: string,
    description: string,
    imageUrl: string,
    images: seq<string>,
    primaryImageIndex: int,
    technologies: seq<string>,
    githubUrl: string,
    liveUrl: string,
    featured: bool)

  /** What submit hands to the page: the project fields, the kept stored URLs and the files to upload. */
  datatype Submission = Submission(data: ProjectData, existingImages: seq<string>, files: seq<File>)

  /** Stored images come before every new one. */
  predicate ExistingFirst(items: seq<ImageItem>) {
    forall i, j :: 0 <= i < j < |items| && items[i].isNew ==> items[j].isNew
  }

  /** Every new item carries its file. */
  predicate NewHaveFiles(items: seq<ImageItem>) {
    forall i :: 0 <= i < |items| && items[i].isNew ==> items[i].file.Some?
  }

  predicate GoodItems(items: seq<ImageItem>) {
    ExistingFirst(items) && NewHaveFiles(items)
  }

  // ---------------------------------------------------------------------------------------------
  // Initial state

  /** The form fields from the project being edited (every `x || default` spelled out), or blank. */
  function InitialForm(init: Option<ProjectDoc>): (f: FormData)
    ensures init.None? ==> f == FormData("", "", "", [], 0, [], "", "", false)
    ensures init.Some? ==>
      var d := init.value.data;
      && f.title == d.title && f.description == d.description && f.imageUrl == d.imageUrl
      && (d.images.Some? ==> f.images == d.images.value)
      && (d.images.None? ==> f.images == [])
      && (d.technologies.Some? ==> f.technologies == d.technologies.value)
      && (d.technologies.None? ==> f.technologies == [])
      && (d.primaryImageIndex.Some? ==> f.primaryImageIndex == d.primaryImageIndex.value)
      && (d.primaryImageIndex.None? ==> f.primaryImageIndex == 0)
      && (d.githubUrl.Some? ==> f.githubUrl == d.githubUrl.value)
      && (d.githubUrl.None? ==> f.githubUrl == "")
      && (d.liveUrl.Some? ==> f.liveUrl == d.liveUrl.value)
      && (d.liveUrl.None? ==> f.liveUrl == "")
      && f.featured == (d.featured == Some(true))
  {
    match init
    case None => FormData("", "", "", [], 0, [], "", "", false)
    case Some(pd) =>
      var d := pd.data;
      assert d.featured.GetOr(false) == (d.featured == Some(true));
      FormData(d.title, d.description, d.imageUrl, d.images.GetOr([]), d.primaryImageIndex.GetOr(0),
               d.technologies.GetOr([]), d.githubUrl.GetOr(""), d.liveUrl.GetOr(""), d.featured.GetOr(false))
  }

  /** One stored item per stored image URL, in order. */
  function StoredItems(urls: seq<string>): (items: seq<ImageItem>)
    ensures |items| == |urls|
    ensures forall i :: 0 <= i < |urls| ==> items[i] == ImageItem(None, urls[i], false)
    ensures GoodItems(items)
  {
    seq(|urls|, i requires 0 <= i < |urls| => ImageItem(None, urls[i], false))
  }

  function InitialItems(init: Option<ProjectDoc>): (items: seq<ImageItem>)
    ensures GoodItems(items)
    ensures init.None? || init.value.data.images.None? ==> items == []
    ensures init.Some? && init.value.data.images.Some? ==> items == StoredItems(init.value.data.images.value)
  {
    if init.Some? && init.value.data.images.Some? then StoredItems(init.value.data.images.value) else []
  }

  function InitialPrimary(init: Option<ProjectDoc>): (p: int)
    ensures init.None? ==> p == 0
    ensures p == InitialForm(init).primaryImageIndex
  {
    if init.Some? then init.value.data.primaryImageIndex.GetOr(0) else 0
  }

  // ---------------------------------------------------------------------------------------------
  // Images

  /** The items appended for the chosen files, in file order, each new and holding its file. */
  function NewItems(files: seq<File>, readUrl: File -> string): (items: seq<ImageItem>)
    ensures |items| == |files|
    ensures forall i :: 0 <= i < |files| ==> items[i] == ImageItem(Some(files[i]), readUrl(files[i]), true)
  {
    seq(|files|, i requires 0 <= i < |files| => ImageItem(Some(files[i]), readUrl(files[i]), true))
  }

  /** Appending new items keeps stored images first and every new item with its file. */
  lemma AppendKeepsGood(items: seq<ImageItem>, files: seq<File>, readUrl: File -> string)
    requires GoodItems(items)
    ensures GoodItems(items + NewItems(files, readUrl))
  {
  }

  /** `prev.filter((_, i) => i !== index)`. */
  function RemoveIndex<T>(s: seq<T>, index: int): (r: seq<T>)
    ensures 0 <= index < |s| ==> |r| == |s| - 1
    ensures 0 <= index < |s| ==> forall k :: 0 <= k < |r| ==> r[k] == if k < index then s[k] else s[k + 1]
    ensures !(0 <= index < |s|) ==> r == s
  {
    if 0 <= index < |s| then s[..index] + s[index + 1..] else s
  }

  /** Removing one item keeps stored images first and every new item with its file. */
  lemma RemoveKeepsGood(items: seq<ImageItem>, index: int)
    requires GoodItems(items)
    ensures GoodItems(RemoveIndex(items, index))
  {
    var r := RemoveIndex(items, index);
    if 0 <= index < |items| {
      forall i, j | 0 <= i < j < |r| && r[i].isNew ensures r[j].isNew {
        var i', j' := if i < index then i else i + 1, if j < index then j else j + 1;
        assert r[i] == items[i'] && r[j] == items[j'];
      }
    }
  }

  /**
   * The primary index after removing item `index` from `len` items (the length before removal):
   * the last position of the shorter list when the primary was at or past the end, one less when
   * it was after the removed item, else unchanged.
   */
  function AdjustedPrimary(p: int, len: nat, index: int): (q: int)
    ensures 0 <= p < len && 0 <= index < len && len > 1 ==> 0 <= q < len - 1
    ensures 0 <= p && len <= 1 ==> q == 0
  {
    if p >= len - 1 then Max(0, len - 2)
    else if p > index then p - 1
    else p
  }

  /** Removing an image other than the primary one keeps the primary index on the same image. */
  lemma RemoveOtherKeepsPrimary<T>(s: seq<T>, p: int, index: int)
    requires 0 <= p < |s| && 0 <= index < |s| && index != p
    ensures var q := AdjustedPrimary(p, |s|, index);
      0 <= q < |RemoveIndex(s, index)| && RemoveIndex(s, index)[q] == s[p]
  {
  }

  // ---------------------------------------------------------------------------------------------
  // Technologies

  /** `list.filter(t => t !== x)`. */
  function Without(s: seq<string>, x: string): (r: seq<string>)
    ensures |r| <= |s|
    ensures forall t :: t in r <==> t in s && t != x
  {
    if |s| == 0 then []
    else if s[0] == x then Without(s[1..], x)
    else [s[0]] + Without(s[1..], x)
  }

  /** Removing a label keeps the other labels in their order. */
  lemma {:induction false} WithoutAppend(a: seq<string>, b: seq<string>, x: string)
    ensures Without(a + b, x) == Without(a, x) + Without(b, x)
  {
    if |a| > 0 {
      assert (a + b)[1..] == a[1..] + b;
      WithoutAppend(a[1..], b, x);
    } else {
      assert a + b == b;
    }
  }

  /** Removing a label keeps a duplicate-free list duplicate-free. */
  lemma {:induction false} WithoutKeepsNoDuplicates(s: seq<string>, x: string)
    requires NoDuplicates(s)
    ensures NoDuplicates(Without(s, x))
  {
    if |s| > 0 {
      WithoutKeepsNoDuplicates(s[1..], x);
      var rest := Without(s[1..], x);
      if s[0] != x {
        assert s[0] !in s[1..];
        assert s[0] !in rest;
        var r := [s[0]] + rest;
        forall i, j | 0 <= i < j < |r| ensures r[i] != r[j] {
          if i == 0 {
            assert r[j] in rest;
          } else {
            assert r[i] == rest[i - 1] && r[j] == rest[j - 1];
          }
        }
      }
    }
  }

  /** handleAddTech on the list: the trimmed input is appended when non-empty and not yet listed. */
  function AddTechnology(techs: seq<string>, input: string): (r: seq<string>)
    ensures Trim(input) != "" && Trim(input) !in techs ==> r == techs + [Trim(input)]
    ensures Trim(input) == "" || Trim(input) in techs ==> r == techs
    ensures NoDuplicates(techs) ==> NoDuplicates(r)
    ensures forall t :: t in r ==> t in techs || t == Trim(input)
  {
    var t := Trim(input);
    if t != "" && t !in techs then techs + [t] else techs
  }

  // ---------------------------------------------------------------------------------------------
  // Submit

  /** `imageItems.map(item => item.url)`. */
  function Urls(items: seq<ImageItem>): (r: seq<string>)
    ensures |r| == |items|
    ensures forall i :: 0 <= i < |items| ==> r[i] == items[i].url
  {
    seq(|items|, i requires 0 <= i < |items| => items[i].url)
  }

  /** `imageItems.filter(item => !item.isNew).map(item => item.url)`. */
  function ExistingUrls(items: seq<ImageItem>): (r: seq<string>)
    ensures |r| <= |items|
    ensures forall u :: u in r <==> exists i :: 0 <= i < |items| && !items[i].isNew && items[i].url == u
  {
    if |items| == 0 then []
    else if items[0].isNew then ExistingUrls(items[1..])
    else
      var rest := ExistingUrls(items[1..]);
      assert forall u :: u in rest <==> exists i :: 1 <= i < |items| && !items[i].isNew && items[i].url == u by {
        forall u | u in rest ensures exists i :: 1 <= i < |items| && !items[i].isNew && items[i].url == u {
          var i :| 0 <= i < |items[1..]| && !items[1..][i].isNew && items[1..][i].url == u;
          assert items[i + 1] == items[1..][i];
        }
        forall u | exists i :: 1 <= i < |items| && !items[i].isNew && items[i].url == u ensures u in rest {
          var i :| 1 <= i < |items| && !items[i].isNew && items[i].url == u;
          assert items[1..][i - 1] == items[i];
        }
      }
      [items[0].url] + rest
  }

  /**
   * `imageItems.filter(item => item.isNew && item.file).map(item => item.file!)`.
   * Its membership is stated by NewFilesMembers and its order by SplitAtStoredCount.
   */
  function NewFiles(items: seq<ImageItem>): (r: seq<File>)
    ensures |r| <= |items|
  {
    if |items| == 0 then []
    else if items[0].isNew && items[0].file.Some? then [items[0].file.value] + NewFiles(items[1..])
    else NewFiles(items[1..])
  }

  /** A file is submitted for upload exactly when some new item holds it. */
  lemma {:induction false} NewFilesMembers(items: seq<ImageItem>, f: File)
    ensures f in NewFiles(items) <==>
      exists i :: 0 <= i < |items| && items[i].isNew && items[i].file == Some(f)
  {
    if |items| > 0 {
      NewFilesMembers(items[1..], f);
      if exists i :: 0 <= i < |items| && items[i].isNew && items[i].file == Some(f) {
        var i :| 0 <= i < |items| && items[i].isNew && items[i].file == Some(f);
        if i > 0 {
          assert items[1..][i - 1] == items[i];
        }
      }
      if exists j :: 0 <= j < |items[1..]| && items[1..][j].isNew && items[1..][j].file == Some(f) {
        var j :| 0 <= j < |items[1..]| && items[1..][j].isNew && items[1..][j].file == Some(f);
        assert items[j + 1] == items[1..][j];
      }
    }
  }

  /** The number of stored items at the front of the list. */
  function StoredCount(items: seq<ImageItem>): (k: nat)
    ensures k <= |items|
    ensures forall i :: 0 <= i < k ==> !items[i].isNew
    ensures k < |items| ==> items[k].isNew
  {
    if |items| == 0 || items[0].isNew then 0 else 1 + StoredCount(items[1..])
  }

  /** With stored images first, the kept URLs are the URLs of the first StoredCount items and the new files are the rest's. */
  lemma {:induction false} SplitAtStoredCount(items: seq<ImageItem>)
    requires GoodItems(items)
    ensures ExistingUrls(items) == Urls(items[..StoredCount(items)])
    ensures |NewFiles(items)| == |items| - StoredCount(items)
    ensures forall i :: StoredCount(items) <= i < |items| ==>
      items[i].file == Some(NewFiles(items)[i - StoredCount(items)])
  {
    if |items| > 0 {
      assert GoodItems(items[1..]) by {
        forall i, j | 0 <= i < j < |items[1..]| && items[1..][i].isNew ensures items[1..][j].isNew {
          assert items[1..][i] == items[i + 1] && items[1..][j] == items[j + 1];
        }
      }
      SplitAtStoredCount(items[1..]);
      if items[0].isNew {
        assert StoredCount(items) == 0;
        AllNewHaveFiles(items);
      } else {
        var k := StoredCount(items[1..]);
        assert Urls(items[..k + 1]) == [items[0].url] + Urls(items[1..][..k]);
      }
    }
  }

  /** When every item is new and holds its file, the new files are exactly those files, in order. */
  lemma {:induction false} AllNewHaveFiles(items: seq<ImageItem>)
    requires forall i :: 0 <= i < |items| ==> items[i].isNew && items[i].file.Some?
    ensures |NewFiles(items)| == |items|
    ensures ExistingUrls(items) == []
    ensures forall i :: 0 <= i < |items| ==> items[i].file == Some(NewFiles(items)[i])
  {
    if |items| > 0 {
      AllNewHaveFiles(items[1..]);
      assert forall i :: 1 <= i < |items| ==> items[1..][i - 1] == items[i];
    }
  }

  /** `imageItems[primaryImageIndex]?.url || ''`. */
  function PrimaryUrl(items: seq<ImageItem>, p: int): (url: string)
    ensures 0 <= p < |items| ==> url == items[p].url
    ensures !(0 <= p < |items|) ==> url == ""
  {
    if 0 <= p < |items| then items[p].url else ""
  }

  /**
   * handleSubmit: rejected when there is no image; otherwise the form fields with `images` all item
   * URLs, the primary index, its URL, the kept stored URLs and the files of the new items.
   */
  function Submit(form: FormData, items: seq<ImageItem>, p: int): (r: Option<Submission>)
    ensures r.None? <==> |items| == 0
    ensures r.Some? ==>
      && r.value.data.images == Urls(items)
      && r.value.data.primaryImageIndex == p
      && r.value.data.imageUrl == PrimaryUrl(items, p)
      && r.value.existingImages == ExistingUrls(items)
      && r.value.files == NewFiles(items)
      && r.value.data.technologies == form.technologies
      && r.value.data.title == form.title
      && r.value.data.description == form.description
      && r.value.data.githubUrl == Some(form.githubUrl)
      && r.value.data.liveUrl == Some(form.liveUrl)
      && r.value.data.featured == Some(form.featured)
  {
    if |items| == 0 then None
    else
      Some(Submission(
        ProjectData(form.title, form.description, PrimaryUrl(items, p), Urls(items), p, form.technologies,
                    Some(form.githubUrl), Some(form.liveUrl), Some(form.featured)),
        ExistingUrls(items), NewFiles(items)))
  }

  /**
   * Opening a stored project in the editor and submitting it untouched gives back its image list
   * and primary index: every image is kept as a stored URL and nothing is uploaded. A project
   * without images is rejected.
   */
  lemma {:induction false} ReopenUnchanged(pd: ProjectDoc)
    ensures
      var urls := pd.data.images.GetOr([]);
      var r := Submit(InitialForm(Some(pd)), InitialItems(Some(pd)), InitialPrimary(Some(pd)));
      && (r.None? <==> |urls| == 0)
      && (r.Some? ==>
        && r.value.data.images == urls
        && r.value.existingImages == urls
        && r.value.files == []
        && r.value.data.primaryImageIndex == pd.data.primaryImageIndex.GetOr(0)
        && r.value.data.title == pd.data.title
        && r.value.data.description == pd.data.description)
  {
    var urls := pd.data.images.GetOr([]);
    var items := InitialItems(Some(pd));
    assert items == StoredItems(urls);
    assert Urls(items) == urls;
    SplitAtStoredCount(items);
    assert StoredCount(items) == |items|;
    assert items[..|items|] == items;
  }

  /** The update the detail page sends for a submission: every field, plus the kept URLs. */
  function AsUpdates(s: Submission): (u: Updates)
    ensures u.fields == AllFields(s.data) && u.existingImages == Some(s.existingImages)
  {
    Updates(AllFields(s.data), Some(s.existingImages))
  }

  /**
   * Submitting an edit with new images: the service stores the kept URLs followed by the uploaded
   * ones, one per item, and because stored items come first, position `i` of that list is item
   * `i`'s stored URL or the upload of item `i`'s file; the primary URL is the chosen item's image
   * (when that URL is not empty).
   */
  lemma {:induction false} SubmitEditWithUploads(form: FormData, items: seq<ImageItem>, p: int, uploaded: seq<string>, now: Time)
    requires GoodItems(items) && 0 <= p < |items|
    requires |uploaded| == |NewFiles(items)| > 0
    ensures var s := Submit(form, items, p).value;
      var all := UpdatePatch(AsUpdates(s), uploaded, now).fields.images.value;
      var k := StoredCount(items);
      && |all| == |items|
      && (forall i :: 0 <= i < |items| ==> (items[i].isNew <==> i >= k))
      && (forall i :: 0 <= i < k ==> all[i] == items[i].url)
      && (forall i :: k <= i < |items| ==> i - k < |uploaded| && all[i] == uploaded[i - k])
      && (all[p] != "" ==> UpdatePatch(AsUpdates(s), uploaded, now).fields.imageUrl == Some(all[p]))
      && UpdatePatch(AsUpdates(s), uploaded, now).fields.primaryImageIndex == Some(p)
  {
    SplitAtStoredCount(items);
    var k := StoredCount(items);
    var s := Submit(form, items, p).value;
    var u := AsUpdates(s);
    assert u.existingImages == Some(Urls(items[..k]));
    assert u.fields.primaryImageIndex == Some(p);
    var all := Urls(items[..k]) + uploaded;
    assert UpdatePatch(u, uploaded, now).fields.images == Some(all);
    assert UpdatePatch(u, uploaded, now).fields.imageUrl == Some(PrimaryImageUrl(all, p));
    forall i | 0 <= i < k ensures all[i] == items[i].url {
      assert all[i] == Urls(items[..k])[i] == items[..k][i].url;
    }
    forall i | k <= i < |items| ensures items[i].isNew {
      assert items[k].isNew;
    }
  }

  /**
   * Submitting an edit without new images: the service writes the submitted `images` and
   * `imageUrl` untouched, so the stored primary URL is that of the chosen item.
   */
  lemma SubmitEditWithoutUploads(form: FormData, items: seq<ImageItem>, p: int, now: Time)
    requires |items| > 0
    ensures var s := Submit(form, items, p).value;
      var f := UpdatePatch(AsUpdates(s), [], now).fields;
      && f.images == Some(Urls(items))
      && f.imageUrl == Some(PrimaryUrl(items, p))
      && f.primaryImageIndex == Some(p)
  {
  }

  /**
   * Submitting a new project: every item is new, so the files go up in item order and the created
   * document's images are the uploads of the items in that order.
   */
  lemma SubmitCreate(form: FormData, items: seq<ImageItem>, p: int, urls: seq<string>, now: Time)
    requires |items| > 0 && forall i :: 0 <= i < |items| ==> items[i].isNew && items[i].file.Some?
    requires |urls| == |items|
    ensures var s := Submit(form, items, p).value;
      && |s.files| == |items|
      && (forall i :: 0 <= i < |items| ==> items[i].file == Some(s.files[i]))
      && CreatedDoc(s.data, urls, now).images == Some(urls)
      && (0 <= p < |urls| && urls[p] != "" ==> CreatedDoc(s.data, urls, now).imageUrl == urls[p])
  {
    AllNewHaveFiles(items);
  }

  /** The editor's state: form fields, the technology input, the image items and the primary index. */
  class Editor {
    var form: FormData
    var techInput: string
    var items: seq<ImageItem>
    var primary: int

    predicate Valid()
      reads this
    {
      GoodItems(items)
    }

    /** Starts from the project being edited, or blank for a new one. */
    constructor (init: Option<ProjectDoc>)
      ensures Valid()
      ensures form == InitialForm(init) && techInput == ""
      ensures items == InitialItems(init) && primary == InitialPrimary(init)
    {
      form := InitialForm(init);
      techInput := "";
      items := InitialItems(init);
      primary := InitialPrimary(init);
    }

    /** handleImageChange: one new item per chosen file, appended in file order with its data URL. */
    method AddImages(files: seq<File>, readUrl: File -> string)
      requires Valid()
      modifies this
      ensures Valid()
      ensures items == old(items) + NewItems(files, readUrl)
      ensures form == old(form) && techInput == old(techInput) && primary == old(primary)
    {
      var i := 0;
      while i < |files|
        invariant 0 <= i <= |files|
        invariant items == old(items) + NewItems(files[..i], readUrl)
        invariant form == old(form) && techInput == old(techInput) && primary == old(primary)
      {
        items := items + [ImageItem(Some(files[i]), readUrl(files[i]), true)];
        i := i + 1;
        assert NewItems(files[..i], readUrl) == NewItems(files[..i - 1], readUrl) + [ImageItem(Some(files[i - 1]), readUrl(files[i - 1]), true)];
      }
      assert files[..i] == files;
      AppendKeepsGood(old(items), files, readUrl);
    }

    /** handleRemoveImage. */
    method RemoveImage(index: int)
      requires Valid()
      modifies this
      ensures Valid()
      ensures items == RemoveIndex(old(items), index)
      ensures primary == AdjustedPrimary(old(primary), |old(items)|, index)
      ensures form == old(form) && techInput == old(techInput)
    {
      RemoveKeepsGood(items, index);
      var len := |items|;
      items := RemoveIndex(items, index);
      if primary >= len - 1 {
        primary := Max(0, len - 2);
      } else if primary > index {
        primary := primary - 1;
      }
    }

    /** handleSetPrimaryImage. */
    method SetPrimary(index: int)
      modifies this
      ensures primary == index
      ensures form == old(form) && techInput == old(techInput) && items == old(items)
    {
      primary := index;
    }

    /** The technology input's onChange. */
    method SetTechInput(s: string)
      modifies this
      ensures techInput == s
      ensures form == old(form) && items == old(items) && primary == old(primary)
    {
      techInput := s;
    }

    /** handleAddTech: appends the trimmed input when it is new and non-empty, and only then clears the input. */
    method AddTech()
      modifies this
      ensures form == old(form).(technologies := AddTechnology(old(form).technologies, old(techInput)))
      ensures techInput == (if form.technologies == old(form).technologies then old(techInput) else "")
      ensures items == old(items) && primary == old(primary)
    {
      var t := Trim(techInput);
      if t != "" && t !in form.technologies {
        form := form.(technologies := form.technologies + [t]);
        techInput := "";
      }
    }

    /** handleRemoveTech. */
    method RemoveTech(tech: string)
      modifies this
      ensures form == old(form).(technologies := Without(old(form).technologies, tech))
      ensures techInput == old(techInput) && items == old(items) && primary == old(primary)
    {
      form := form.(technologies := Without(form.technologies, tech));
    }

    /** handleSubmit: what is handed to the page, or none when there is no image; the state is kept. */
    method HandleSubmit() returns (r: Option<Submission>)
      ensures r.None? <==> |items| == 0
      ensures r.Some? ==> r.value.existingImages == ExistingUrls(items) && r.value.files == NewFiles(items)
      ensures r.Some? ==> r.value.data.imageUrl == PrimaryUrl(items, primary) && r.value.data.images == Urls(items)
      ensures r == Submit(form, items, primary)
    {
      r := Submit(form, items, primary);
    }
  }
}
