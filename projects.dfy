/**
 * The catalog's data model: the typed `Project` record the client works with, and the shape
 * of a stored project document, whose fields may be missing on older records because reads
 * only cast the document to `Project` without checking it.
 */
module Projects {
  import opened Common

  /** Store timestamps and client dates, as opaque instants; converting one into the other keeps its value. */
  type Time = int

  /** A local file chosen for upload; only its name is visible to the model. */
  datatype File = File(name: string)

  /** The `Project` record as the client code types it. */
  datatype Project = Project(
    id: Option<string>,
    title: string,
    description: string,
    imageUrl: string,
    images: seq<string>,
    primaryImageIndex: int,
    technologies: seq<string>,
    githubUrl: Option<string>,
    liveUrl: Option<string>,
    createdAt: Time,
    updatedAt: Time,
    featured: Option<bool>)

  /** A project without identifier and timestamps: what the editor hands to create. */
  datatype ProjectData = ProjectData(
    title: string,
    description: string,
    imageUrl: string,
    images: seq<string>,
    primaryImageIndex: int,
    technologies: seq<string>,
    githubUrl: Option<string>,
    liveUrl: Option<string>,
    featured: Option<bool>)

  /** A stored project document. Legacy documents may lack the optional fields. */
  datatype Doc = Doc(
    title: string,
    description: string,
    imageUrl: string,
    images: Option<seq<string>>,
    primaryImageIndex: Option<int>,
    technologies: Option<seq<string>>,
    githubUrl: Option<string>,
    liveUrl: Option<string>,
    featured: Option<bool>,
    createdAt: Option<Time>,
    updatedAt: Option<Time>)

  /** A document together with its store-assigned identifier (a query document snapshot). */
  datatype ProjectDoc = ProjectDoc(id: string, data: Doc)

  /** One page of the listing: the projects read and the last document snapshot, if any. */
  datatype Page = Page(projects: seq<ProjectDoc>, lastVisible: Option<ProjectDoc>)

  /** A partial set of project fields: the ones that are present are written. */
  datatype Fields = Fields(
    title: Option<string>,
    description: Option<string>,
    imageUrl: Option<string>,
    images: Option<seq<string>>,
    primaryImageIndex: Option<int>,
    technologies: Option<seq<string>>,
    githubUrl: Option<string>,
    liveUrl: Option<string>,
    featured: Option<bool>)

  const NoFields := Fields(None, None, None, None, None, None, None, None, None)

  /** The argument of update: partial fields plus the transport-only list of kept image URLs. */
  datatype Updates = Updates(fields: Fields, existingImages: Option<seq<string>>)

  /** What a partial document write carries: fields, and a new `updatedAt` when one is stamped. */
  datatype Patch = Patch(fields: Fields, updatedAt: Option<Time>)

  /** Every field of `data`, as a partial update that writes all of them. */
  function AllFields(data: ProjectData): (f: Fields)
    ensures f.images == Some(data.images) && f.imageUrl == Some(data.imageUrl)
    ensures f.primaryImageIndex == Some(data.primaryImageIndex)
  {
    Fields(Some(data.title), Some(data.description), Some(data.imageUrl), Some(data.images),
           Some(data.primaryImageIndex), Some(data.technologies), data.githubUrl, data.liveUrl,
           data.featured)
  }

  /** An optional stored field after a partial write: the written value when there is one. */
  function Overlay<T>(written: Option<T>, stored: Option<T>): (r: Option<T>)
    ensures written.Some? ==> r == written
    ensures written.None? ==> r == stored
  {
    if written.Some? then written else stored
  }

  /** A partial document write: present fields replace the stored ones, absent fields are kept. */
  function ApplyPatch(d: Doc, p: Patch): (r: Doc)
    ensures r.createdAt == d.createdAt
    ensures r.updatedAt == (if p.updatedAt.Some? then p.updatedAt else d.updatedAt)
    ensures p.fields.title.Some? ==> r.title == p.fields.title.value
    ensures p.fields.title.None? ==> r.title == d.title
    ensures p.fields.description.Some? ==> r.description == p.fields.description.value
    ensures p.fields.description.None? ==> r.description == d.description
    ensures p.fields.imageUrl.Some? ==> r.imageUrl == p.fields.imageUrl.value
    ensures p.fields.imageUrl.None? ==> r.imageUrl == d.imageUrl
    ensures p.fields.images.Some? ==> r.images == p.fields.images
    ensures p.fields.images.None? ==> r.images == d.images
    ensures p.fields.primaryImageIndex.Some? ==> r.primaryImageIndex == p.fields.primaryImageIndex
    ensures p.fields.primaryImageIndex.None? ==> r.primaryImageIndex == d.primaryImageIndex
    ensures p.fields.technologies.Some? ==> r.technologies == p.fields.technologies
    ensures p.fields.technologies.None? ==> r.technologies == d.technologies
    ensures p.fields.githubUrl.Some? ==> r.githubUrl == p.fields.githubUrl
    ensures p.fields.githubUrl.None? ==> r.githubUrl == d.githubUrl
    ensures p.fields.liveUrl.Some? ==> r.liveUrl == p.fields.liveUrl
    ensures p.fields.liveUrl.None? ==> r.liveUrl == d.liveUrl
    ensures p.fields.featured.Some? ==> r.featured == p.fields.featured
    ensures p.fields.featured.None? ==> r.featured == d.featured
    ensures p == Patch(NoFields, None) ==> r == d
  {
    var f := p.fields;
    Doc(f.title.GetOr(d.title),
        f.description.GetOr(d.description),
        f.imageUrl.GetOr(d.imageUrl),
        Overlay(f.images, d.images),
        Overlay(f.primaryImageIndex, d.primaryImageIndex),
        Overlay(f.technologies, d.technologies),
        Overlay(f.githubUrl, d.githubUrl),
        Overlay(f.liveUrl, d.liveUrl),
        Overlay(f.featured, d.featured),
        d.createdAt,
        Overlay(p.updatedAt, d.updatedAt))
  }

  /** Writing the same partial document twice is writing it once. */
  lemma ApplyPatchIdempotent(d: Doc, p: Patch)
    ensures ApplyPatch(ApplyPatch(d, p), p) == ApplyPatch(d, p)
  {
  }
}
