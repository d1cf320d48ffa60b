/** `projectController`: the visibility filter, listing arithmetic and
    message of `getAllProjects`, the gallery handlers `updateGallery` and
    `deleteGallery`, and the file names `resizeImage` and `resizeGallery`
    generate. (`multerFilter` is `Upload.ImageFilter`.) */
module ProjectController {
  import opened Js
  import opened Crypto
  import opened UserModel
  import opened Express
  import opened Listing

  const SetLimit := 12

  /** The part of a project document these handlers use: the owner, the
      user ids in `members.user`, and the gallery file names. */
  datatype Project = Project(owner: UserId, members: seq<UserId>, images: seq<string>)

  /** The projects collection, by id. */
  class ProjectStore {
    var projects: map<string, Project>

    constructor (projects: map<string, Project>)
      ensures this.projects == projects
    {
      this.projects := projects;
    }
  }

  /** `filterData.$or`: an admin gets only `{ owner: userId }`, any other
      role gets `{ owner: userId }` or `{ 'members.user': userId }`. */
  predicate Visible(role: Role, userId: UserId, p: Project) {
    if role == Admin then p.owner == userId
    else p.owner == userId || userId in p.members
  }

  /** An admin sees exactly the projects they own; a plain user also sees
      those they are a member of. So an admin who is only a member of a
      project does not see it, where a user in the same position would. */
  lemma VisibilityByRole(userId: UserId, p: Project)
    ensures Visible(Admin, userId, p) <==> p.owner == userId
    ensures Visible(User, userId, p) <==> p.owner == userId || (exists k :: 0 <= k < |p.members| && p.members[k] == userId)
    ensures Visible(Admin, userId, p) ==> Visible(User, userId, p)
    ensures p.owner != userId && userId in p.members ==> !Visible(Admin, userId, p) && Visible(User, userId, p)
  {
  }

  /** What `getAllProjects` computes before querying. */
  datatype ProjectListing = ProjectListing(name: NameFilter, page: Page, message: string)

  function ListProjects(q: ListQuery, count: nat): (r: ProjectListing)
    ensures r.name.NameLike? <==> Truthy(q.key)
    ensures q.limit.None? || q.limit == Some(0) ==> r.page.limit == SetLimit
    ensures q.page.None? || q.page == Some(0) ==> r.page.page == 1 && r.page.skip == 0
    ensures r.page.skip == (r.page.page - 1) * r.page.limit
    ensures r.page.limit > 0 ==> (r.page.totalPages - 1) * r.page.limit < count <= r.page.totalPages * r.page.limit
    ensures r.message == "Project added" <==> q.m == Some("1")
    ensures r.message == "Project deleted" <==> q.m == Some("2")
    ensures r.message == "" <==> q.m != Some("1") && q.m != Some("2")
  {
    ProjectListing(KeyFilter(q.key), Paginate(q.limit, q.page, count, SetLimit), FlashMessage(q.m, "Project"))
  }

  /** `indexOf` then `splice(index, 1)` when found. */
  function RemoveFirst(images: seq<string>, image: string): (r: seq<string>)
    ensures image !in images ==> r == images
    ensures image in images ==> |r| == |images| - 1
    ensures multiset(r) == multiset(images) - multiset{image}
  {
    match IndexOf(images, image)
    case None => images
    case Some(i) =>
      assert images == images[..i] + [images[i]] + images[i + 1..];
      images[..i] + images[i + 1..]
  }

  /** Only the first occurrence goes: everything before it stays, and
      everything after it moves up by one, later copies included. */
  lemma RemoveFirstKeepsOthers(images: seq<string>, image: string, i: nat)
    requires i < |images| && images[i] == image && forall k :: 0 <= k < i ==> images[k] != image
    ensures RemoveFirst(images, image) == images[..i] + images[i + 1..]
    ensures forall k :: 0 <= k < i ==> RemoveFirst(images, image)[k] == images[k]
    ensures forall k :: i <= k < |images| - 1 ==> RemoveFirst(images, image)[k] == images[k + 1]
  {
    assert IndexOf(images, image) == Some(i);
  }

  const NoDocument := AppError("No document found with that ID", 404)

  /** `deleteGallery` with `req.body = { id, image }`. A falsy `image` goes
      to `next` with 404. A project that `findById` does not find makes
      `query.images` throw. Otherwise the first occurrence of `image` is
      removed, the list is written with `$set`, and the reply redirects to
      the photo page. */
  method DeleteGallery(ex: Exchange, store: ProjectStore, id: string, image: Option<string>)
    requires ex.reply.None?
    modifies ex, store
    ensures !Truthy(image) ==>
      ex.nexts == old(ex.nexts) + [Fail(NoDocument)] && ex.reply.None? && store.projects == old(store.projects)
    ensures Truthy(image) && id !in old(store.projects) ==>
      ex.nexts == old(ex.nexts) + [Rethrown] && ex.reply.None? && store.projects == old(store.projects)
    ensures Truthy(image) && id in old(store.projects) ==>
      && ex.nexts == old(ex.nexts)
      && ex.reply == Some(Reply(302, Redirect("/project/photo/" + id)))
      && store.projects == old(store.projects)[id := old(store.projects)[id].(images := RemoveFirst(old(store.projects)[id].images, image.value))]
  {
    if !Truthy(image) {
      ex.Next(Fail(NoDocument));
      return;
    }
    if id !in store.projects {
      ex.Next(Rethrown);
      return;
    }
    var images := store.projects[id].images;
    var index := IndexOf(images, image.value);
    if index.Some? {
      images := images[..index.value] + images[index.value + 1..];
    }
    store.projects := store.projects[id := store.projects[id].(images := images)];
    var _ := ex.Send(Reply(302, Redirect("/project/photo/" + id)));
  }

  /** `updateGallery`: `$push` with `$each` appends the new names in order.
      `updateOne` resolves to a result object, which is always truthy, so
      the 404 branch is never taken and an unknown id redirects too. */
  method UpdateGallery(ex: Exchange, store: ProjectStore, id: string, newImages: seq<string>)
    requires ex.reply.None?
    modifies ex, store
    ensures ex.nexts == old(ex.nexts)
    ensures ex.reply == Some(Reply(302, Redirect("/project/photo/" + id)))
    ensures id in old(store.projects) ==>
      store.projects == old(store.projects)[id := old(store.projects)[id].(images := old(store.projects)[id].images + newImages)]
    ensures id !in old(store.projects) ==> store.projects == old(store.projects)
  {
    if id in store.projects {
      store.projects := store.projects[id := store.projects[id].(images := store.projects[id].images + newImages)];
    }
    var _ := ex.Send(Reply(302, Redirect("/project/photo/" + id)));
  }

  /** `project-${id}-${Date.now()}-cover.jpeg`. */
  function CoverName(id: string, now: nat): string {
    "project-" + id + "-" + DecimalString(now) + "-cover.jpeg"
  }

  /** `project-${id}-${Date.now()}-${i + 1}.jpeg` for the i-th file (from 0). */
  function GalleryName(id: string, now: nat, i: nat): string {
    "project-" + id + "-" + DecimalString(now) + "-" + DecimalString(i + 1) + ".jpeg"
  }

  /** `resizeGallery`: one name per uploaded file, each file reading the
      clock itself (`stamps[i]`). */
  method ResizeGallery(id: string, stamps: seq<nat>) returns (images: seq<string>)
    ensures |images| == |stamps|
    ensures forall i :: 0 <= i < |stamps| ==> images[i] == GalleryName(id, stamps[i], i)
  {
    images := [];
    var i := 0;
    while i < |stamps|
      invariant 0 <= i <= |stamps| && |images| == i
      invariant forall k :: 0 <= k < i ==> images[k] == GalleryName(id, stamps[k], k)
    {
      images := images + [GalleryName(id, stamps[i], i)];
      i := i + 1;
    }
  }

  lemma SeparatorAt(a: string, sep: char, b: string)
    ensures (a + [sep] + b)[|a|] == sep
    ensures forall k :: 0 <= k < |a| ==> (a + [sep] + b)[k] == a[k]
  {
  }

  /** Splitting at the first occurrence of a separator the left parts lack. */
  lemma SplitAtSeparator(a: string, b: string, c: string, d: string, sep: char)
    requires forall k :: 0 <= k < |a| ==> a[k] != sep
    requires forall k :: 0 <= k < |c| ==> c[k] != sep
    requires a + [sep] + b == c + [sep] + d
    ensures a == c && b == d
  {
    var x := a + [sep] + b;
    SeparatorAt(a, sep, b);
    SeparatorAt(c, sep, d);
    assert a == x[..|a|] && c == x[..|c|];
    assert b == x[|a| + 1..] && d == x[|c| + 1..];
  }

  lemma NoDashInDecimal(n: nat)
    ensures forall k :: 0 <= k < |DecimalString(n)| ==> DecimalString(n)[k] != '-'
  {
  }

  /** Two files of one upload never get the same name, whatever times
      they read: the index after the last `-` tells them apart. */
  lemma GalleryNamesDistinct(id: string, t1: nat, t2: nat, i: nat, j: nat)
    requires i != j
    ensures GalleryName(id, t1, i) != GalleryName(id, t2, j)
  {
    if GalleryName(id, t1, i) == GalleryName(id, t2, j) {
      var p := "project-" + id + "-";
      var x1 := DecimalString(t1) + "-" + DecimalString(i + 1);
      var x2 := DecimalString(t2) + "-" + DecimalString(j + 1);
      assert GalleryName(id, t1, i) == p + x1 + ".jpeg";
      assert GalleryName(id, t2, j) == p + x2 + ".jpeg";
      assert x1 == (p + x1 + ".jpeg")[|p|..|p| + |x1|];
      assert x2 == (p + x2 + ".jpeg")[|p|..|p| + |x2|];
      NoDashInDecimal(t1);
      NoDashInDecimal(t2);
      SplitAtSeparator(DecimalString(t1), DecimalString(i + 1), DecimalString(t2), DecimalString(j + 1), '-');
      DecimalStringInjective(i + 1, j + 1);
    }
  }

  /** A cover name is never a gallery name: the character before `.jpeg`
      is a digit in one and `r` in the other. */
  lemma CoverIsNotGallery(id: string, t1: nat, t2: nat, i: nat)
    ensures CoverName(id, t1) != GalleryName(id, t2, i)
  {
    var c := CoverName(id, t1);
    var g := GalleryName(id, t2, i);
    var digits := DecimalString(i + 1);
    assert c[|c| - 6] == 'r';
    assert g == ("project-" + id + "-" + DecimalString(t2) + "-") + digits + ".jpeg";
    assert g[|g| - 6] == digits[|digits| - 1];
  }
}
