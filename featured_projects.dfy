/**
 * The featured-projects query of the home page: which documents the store query selects, how each
 * stored document, possibly a legacy one, becomes a `Project`, and where the result is cached.
 */
module FeaturedProjects {
  import opened Common
  import opened Projects
  import opened ProjectQueries
  import ProjectService

  const DefaultLimit := 6

  /** Five minutes, in milliseconds. */
  const StaleTime := 1000 * 60 * 5

  /** The cache key of one limit's featured list. */
  function FeaturedKey(limitCount: nat): (k: Key)
    ensures |k| == 3 && IsPrefix(All(), k) && k[2] == Size(limitCount)
  {
    All() + [Word("featured"), Size(limitCount)]
  }

  /**
   * The featured lists live under the catalog's root key but outside the `lists()` namespace, so
   * invalidating the lists never marks them stale.
   */
  lemma FeaturedKeyOutsideLists(limitCount: nat, keys: set<Key>)
    ensures !IsPrefix(Lists(), FeaturedKey(limitCount))
    ensures FeaturedKey(limitCount) !in Matching(keys, Lists())
    ensures IsPrefix(All(), FeaturedKey(limitCount))
  {
    assert FeaturedKey(limitCount)[..2][1] != Lists()[1];
  }

  /** Documents ordered by creation time, newest first. */
  predicate NewestFirst(docs: seq<ProjectDoc>) {
    (forall i :: 0 <= i < |docs| ==> docs[i].data.createdAt.Some?) &&
    forall i, j :: 0 <= i < j < |docs| ==> docs[i].data.createdAt.value >= docs[j].data.createdAt.value
  }

  /** A document the query can select: marked featured and carrying the field it is ordered by. */
  predicate Selectable(d: Doc) {
    d.featured == Some(true) && d.createdAt.Some?
  }

  /**
   * What the store answers for `featured == true`, ordered by `createdAt` descending, limited to
   * `limitCount`: stored documents, each at most once, all selectable, newest first, at most the
   * limit; and a selectable document is left out only when the answer is full and nothing in it is
   * older.
   */
  predicate QueryAnswer(store: map<string, Doc>, snapshot: seq<ProjectDoc>, limitCount: nat) {
    && |snapshot| <= limitCount
    && (forall i :: 0 <= i < |snapshot| ==>
          snapshot[i].id in store && store[snapshot[i].id] == snapshot[i].data && Selectable(snapshot[i].data))
    && (forall i, j :: 0 <= i < j < |snapshot| ==> snapshot[i].id != snapshot[j].id)
    && NewestFirst(snapshot)
    && (forall id :: id in store && Selectable(store[id]) && (forall i :: 0 <= i < |snapshot| ==> snapshot[i].id != id) ==>
          |snapshot| == limitCount &&
          forall i :: 0 <= i < |snapshot| ==> snapshot[i].data.createdAt.value >= store[id].createdAt.value)
  }

  /**
   * One document as the hook builds its `Project`: a missing image list becomes the single legacy
   * `imageUrl`; a missing or zero primary index becomes 0, missing technologies none, a missing or
   * false `featured` false, and a missing timestamp the current time.
   */
  function Normalise(pd: ProjectDoc, now: Time): (p: Project)
    ensures p.id == Some(pd.id) && p.title == pd.data.title && p.imageUrl == pd.data.imageUrl
    ensures p.description == pd.data.description
    ensures pd.data.images.None? ==> p.images == [pd.data.imageUrl]
    ensures pd.data.images.Some? ==> p.images == pd.data.images.value
    ensures p.primaryImageIndex == pd.data.primaryImageIndex.GetOr(0)
    ensures p.technologies == pd.data.technologies.GetOr([])
    ensures p.featured == Some(pd.data.featured == Some(true))
    ensures p.createdAt == pd.data.createdAt.GetOr(now) && p.updatedAt == pd.data.updatedAt.GetOr(now)
    ensures p.githubUrl == pd.data.githubUrl && p.liveUrl == pd.data.liveUrl
  {
    var d := pd.data;
    Project(Some(pd.id), d.title, d.description, d.imageUrl,
            if d.images.Some? then d.images.value else [d.imageUrl],
            d.primaryImageIndex.GetOr(0),
            d.technologies.GetOr([]),
            d.githubUrl, d.liveUrl,
            d.createdAt.GetOr(now), d.updatedAt.GetOr(now),
            Some(d.featured == Some(true)))
  }

  /** A legacy document without an image list shows its single `imageUrl` as the primary image. */
  lemma LegacyDocShowsImageUrl(pd: ProjectDoc, now: Time)
    requires pd.data.images.None? && pd.data.primaryImageIndex.None?
    ensures var p := Normalise(pd, now);
      |p.images| == 1 && 0 <= p.primaryImageIndex < |p.images| && p.images[p.primaryImageIndex] == pd.data.imageUrl
  {
  }

  /** A document written by the catalog's create carries every field, so it reads back as written. */
  lemma CreatedDocReadsBack(id: string, data: ProjectData, urls: seq<string>, created: Time, now: Time)
    ensures var p := Normalise(ProjectDoc(id, ProjectService.CreatedDoc(data, urls, created)), now);
      && p.images == urls
      && p.primaryImageIndex == data.primaryImageIndex
      && p.technologies == data.technologies
      && p.featured == Some(data.featured == Some(true))
      && p.createdAt == created && p.updatedAt == created
      && p.title == data.title
  {
  }

  /** The hook's loop: one normalised project per document of the answer, in the answer's order. */
  method LoadFeatured(snapshot: seq<ProjectDoc>, now: Time) returns (projects: seq<Project>)
    ensures |projects| == |snapshot|
    ensures forall i :: 0 <= i < |snapshot| ==> projects[i] == Normalise(snapshot[i], now)
  {
    projects := [];
    var i := 0;
    while i < |snapshot|
      invariant 0 <= i <= |snapshot|
      invariant |projects| == i
      invariant forall k :: 0 <= k < i ==> projects[k] == Normalise(snapshot[k], now)
    {
      projects := projects + [Normalise(snapshot[i], now)];
      i := i + 1;
    }
  }

  /**
   * What the hook returns for a store answer: at most `limitCount` featured projects, distinct,
   * newest first by their stored creation time, and no newer featured project left out.
   */
  lemma FeaturedResult(store: map<string, Doc>, snapshot: seq<ProjectDoc>, limitCount: nat,
                       now: Time, projects: seq<Project>)
    requires QueryAnswer(store, snapshot, limitCount)
    requires |projects| == |snapshot|
    requires forall i :: 0 <= i < |snapshot| ==> projects[i] == Normalise(snapshot[i], now)
    ensures |projects| <= limitCount
    ensures forall i :: 0 <= i < |projects| ==>
      projects[i].featured == Some(true) && projects[i].id.Some? && projects[i].id.value in store
    ensures forall i, j :: 0 <= i < j < |projects| ==>
      projects[i].createdAt >= projects[j].createdAt && projects[i].id != projects[j].id
    ensures forall id :: id in store && Selectable(store[id]) && Some(id) !in Ids(projects) ==>
      |projects| == limitCount && forall i :: 0 <= i < |projects| ==> projects[i].createdAt >= store[id].createdAt.value
  {
    forall id | id in store && Selectable(store[id]) && Some(id) !in Ids(projects)
      ensures forall i :: 0 <= i < |snapshot| ==> snapshot[i].id != id
    {
      forall i | 0 <= i < |snapshot| ensures snapshot[i].id != id {
        assert Ids(projects)[i] == projects[i].id;
      }
    }
  }

  /** The identifiers of a list of projects, in order. */
  function Ids(projects: seq<Project>): (ids: seq<Option<string>>)
    ensures |ids| == |projects| && forall i :: 0 <= i < |projects| ==> ids[i] == projects[i].id
  {
    seq(|projects|, i requires 0 <= i < |projects| => projects[i].id)
  }
}
