/** The blog editor (src/pages/admin/AdminAddBlog.tsx): the slug derived from the title,
    and the publish step with its guards (required fields, a logged-in user, the optional
    image upload, the insert). Case mapping is ASCII only. */
module AdminAddBlog {
  import opened Common

  // ---------------------------------------------------------------------------
  // Slugs

  /** `[a-z0-9]`. */
  predicate IsSlugChar(c: char)
  {
    'a' <= c <= 'z' || '0' <= c <= '9'
  }

  /** Drops the leading run of characters outside `[a-z0-9]`. */
  function DropSeparators(s: string): (r: string)
    ensures |r| <= |s|
    ensures r == [] || IsSlugChar(r[0])
  {
    if s == [] then [] else if IsSlugChar(s[0]) then s else DropSeparators(s[1..])
  }

  /** `.replace(/[^a-z0-9]+/g, "-")`: every maximal run of other characters becomes one
      '-'. The result holds only `[a-z0-9]` and '-', never two '-' in a row, and starts
      with '-' exactly when the input starts with a separator. */
  function Dashify(s: string): (r: string)
    ensures forall i :: 0 <= i < |r| ==> IsSlugChar(r[i]) || r[i] == '-'
    ensures forall i :: 0 <= i < |r| - 1 ==> !(r[i] == '-' && r[i + 1] == '-')
    ensures (r != [] && r[0] == '-') <==> (s != [] && !IsSlugChar(s[0]))
    ensures r == [] <==> s == []
    decreases |s|
  {
    if s == [] then []
    else if IsSlugChar(s[0]) then
      var rest := Dashify(s[1..]);
      assert forall i :: 1 <= i < |[s[0]] + rest| ==> ([s[0]] + rest)[i] == rest[i - 1];
      [s[0]] + rest
    else
      var rest := Dashify(DropSeparators(s[1..]));
      assert forall i :: 1 <= i < |"-" + rest| ==> ("-" + rest)[i] == rest[i - 1];
      "-" + rest
  }

  /** `.replace(/(^-|-$)/g, "")`: one leading and one trailing '-' are removed. */
  function StripDashes(s: string): string
  {
    var a := if s != [] && s[0] == '-' then s[1..] else s;
    if a != [] && a[|a| - 1] == '-' then a[..|a| - 1] else a
  }

  /** The slug computed from a title in handleTitleChange. */
  function Slug(title: string): string
  {
    StripDashes(Dashify(Lower(title)))
  }

  /** Only `[a-z0-9]` and '-', no two '-' in a row, and no '-' at either end. */
  predicate WellFormedSlug(s: string)
  {
    && (forall i :: 0 <= i < |s| ==> IsSlugChar(s[i]) || s[i] == '-')
    && (forall i :: 0 <= i < |s| - 1 ==> !(s[i] == '-' && s[i + 1] == '-'))
    && (s != [] ==> s[0] != '-' && s[|s| - 1] != '-')
  }

  /** The letters and digits of a text, in order. */
  function Alphanumerics(s: string): string
  {
    Filter(s, IsSlugChar)
  }

  lemma StripKeepsShape(s: string)
    requires forall i :: 0 <= i < |s| ==> IsSlugChar(s[i]) || s[i] == '-'
    requires forall i :: 0 <= i < |s| - 1 ==> !(s[i] == '-' && s[i + 1] == '-')
    ensures WellFormedSlug(StripDashes(s))
  {
    var a := if s != [] && s[0] == '-' then s[1..] else s;
    assert forall i :: 0 <= i < |a| - 1 ==> !(a[i] == '-' && a[i + 1] == '-');
    assert a != [] ==> a[0] != '-';
  }

  /** Every slug is well formed, whatever the title. */
  lemma SlugWellFormed(title: string)
    ensures WellFormedSlug(Slug(title))
  {
    StripKeepsShape(Dashify(Lower(title)));
  }

  lemma {:induction false} DropSeparatorsKeepsAlphanumerics(s: string)
    ensures Alphanumerics(DropSeparators(s)) == Alphanumerics(s)
  {
    if s != [] && !IsSlugChar(s[0]) {
      DropSeparatorsKeepsAlphanumerics(s[1..]);
    }
  }

  lemma {:induction false} DashifyKeepsAlphanumerics(s: string)
    ensures Alphanumerics(Dashify(s)) == Alphanumerics(s)
    decreases |s|
  {
    if s != [] {
      if IsSlugChar(s[0]) {
        DashifyKeepsAlphanumerics(s[1..]);
        assert ([s[0]] + Dashify(s[1..]))[1..] == Dashify(s[1..]);
      } else {
        var d := DropSeparators(s[1..]);
        DashifyKeepsAlphanumerics(d);
        DropSeparatorsKeepsAlphanumerics(s[1..]);
        assert ("-" + Dashify(d))[1..] == Dashify(d);
      }
    }
  }

  lemma DropFirstDashKeepsAlphanumerics(s: string)
    requires s != [] && s[0] == '-'
    ensures Alphanumerics(s[1..]) == Alphanumerics(s)
  {
  }

  lemma DropLastDashKeepsAlphanumerics(s: string)
    requires s != [] && s[|s| - 1] == '-'
    ensures Alphanumerics(s[..|s| - 1]) == Alphanumerics(s)
  {
    assert s == s[..|s| - 1] + [s[|s| - 1]];
    FilterAppend(s[..|s| - 1], [s[|s| - 1]], IsSlugChar);
  }

  lemma StripKeepsAlphanumerics(s: string)
    ensures Alphanumerics(StripDashes(s)) == Alphanumerics(s)
  {
    var a := if s != [] && s[0] == '-' then s[1..] else s;
    if s != [] && s[0] == '-' {
      DropFirstDashKeepsAlphanumerics(s);
    }
    if a != [] && a[|a| - 1] == '-' {
      DropLastDashKeepsAlphanumerics(a);
    }
  }

  /** The letters and digits of the lower-cased title appear in the slug, in order, and
      nothing else but single dashes does. */
  lemma SlugKeepsAlphanumerics(title: string)
    ensures Alphanumerics(Slug(title)) == Alphanumerics(Lower(title))
  {
    DashifyKeepsAlphanumerics(Lower(title));
    StripKeepsAlphanumerics(Dashify(Lower(title)));
  }

  /** A title without any ASCII letter or digit gives the empty slug, and only such a
      title does. */
  lemma EmptySlug(title: string)
    ensures Slug(title) == "" <==> forall i :: 0 <= i < |title| ==> !IsSlugChar(LowerChar(title[i]))
  {
    var low := Lower(title);
    var s := Slug(title);
    SlugKeepsAlphanumerics(title);
    SlugWellFormed(title);
    FilterEmpty(low, IsSlugChar);
    FilterEmpty(s, IsSlugChar);
    assert forall i :: 0 <= i < |title| ==> low[i] == LowerChar(title[i]);
  }

  /** Slugging a slug changes nothing. */
  lemma {:induction false} DashifyFixed(s: string)
    requires forall i :: 0 <= i < |s| ==> IsSlugChar(s[i]) || s[i] == '-'
    requires forall i :: 0 <= i < |s| - 1 ==> !(s[i] == '-' && s[i + 1] == '-')
    ensures Dashify(s) == s
    decreases |s|
  {
    if s != [] {
      DashifyFixed(s[1..]);
      if !IsSlugChar(s[0]) {
        assert s[1..] == [] || IsSlugChar(s[1]);
        assert DropSeparators(s[1..]) == s[1..];
        assert s == [s[0]] + s[1..];
      }
    }
  }

  lemma SlugIdempotent(title: string)
    ensures Slug(Slug(title)) == Slug(title)
  {
    var s := Slug(title);
    SlugWellFormed(title);
    assert Lower(s) == s;
    DashifyFixed(s);
  }

  // ---------------------------------------------------------------------------
  // The page

  datatype ImageFile = ImageFile(name: string)

  /** The row sent to the `blogs` table. */
  datatype BlogRow = BlogRow(title: string, slug: string, content: string,
                             imageUrl: Option<string>, published: bool, userId: string)

  /** A stored blog as the edit mode loads it. */
  datatype StoredBlog = StoredBlog(title: string, slug: string, content: string, imageUrl: Option<string>)

  const RequiredAlert := "Title and content are required"
  const LoadFailedAlert := "Failed to load blog"
  const LoginAlert := "You must be logged in to publish a blog"
  const PublishedAlert := "Blog published successfully!"
  const FailedAlert := "Failed to publish blog: "
  const BlogsRoute := "/admin/blogs"
  const ImageBucket := "blog-images"

  /** `!title || !content` is false: both fields hold text. */
  predicate Filled(title: string, content: string)
  {
    title != "" && content != ""
  }

  /** `blogs/${Date.now()}.${ext}`. */
  function UploadPath(stamp: string, file: ImageFile): string
  {
    "blogs/" + stamp + "." + AfterLastDot(file.name)
  }

  class AddBlogPage {
    var title: string
    var slug: string
    var content: string
    var imageFile: Option<ImageFile>
    var imageUrl: Option<string>
    var loading: bool
    var alerts: seq<string>
    var navigations: seq<string>

    constructor ()
      ensures title == "" && slug == "" && content == ""
      ensures imageFile == None && imageUrl == None && !loading
      ensures alerts == [] && navigations == []
    {
      title := "";
      slug := "";
      content := "";
      imageFile := None;
      imageUrl := None;
      loading := false;
      alerts := [];
      navigations := [];
    }

    method HandleTitleChange(value: string)
      modifies this`title, this`slug
      ensures title == value && slug == Slug(value)
    {
      title := value;
      slug := StripDashes(Dashify(Lower(value)));
    }

    method SetContent(value: string)
      modifies this`content
      ensures content == value
    {
      content := value;
    }

    /** The cover input's change: a chosen file replaces the previous one; an empty
        selection keeps it. */
    method SelectImage(file: Option<ImageFile>)
      modifies this`imageFile
      ensures file.Some? ==> imageFile == file
      ensures file.None? ==> imageFile == old(imageFile)
    {
      if file.Some? {
        imageFile := file;
      }
    }

    /** The edit mode's fetchBlog: a loaded row fills the fields as stored, the slug
        included (it is not recomputed from the title); a failed select only alerts. */
    method FetchBlog(row: Option<StoredBlog>) returns (requests: seq<Request>)
      modifies this`title, this`slug, this`content, this`imageUrl, this`alerts
      ensures requests == [Select("blogs")]
      ensures row.None? ==>
        title == old(title) && slug == old(slug) && content == old(content) && imageUrl == old(imageUrl)
        && alerts == old(alerts) + [LoadFailedAlert]
      ensures row.Some? ==>
        title == row.value.title && slug == row.value.slug && content == row.value.content
        && imageUrl == row.value.imageUrl && alerts == old(alerts)
    {
      requests := [Select("blogs")];
      if row.None? {
        alerts := alerts + [LoadFailedAlert];
        return;
      }
      title := row.value.title;
      slug := row.value.slug;
      content := row.value.content;
      imageUrl := row.value.imageUrl;
    }

    /** Publish. The backend answers are parameters: the logged-in user's id (None for an
        error or no session), the uploaded image's public URL or the upload's error
        message, and the insert's error message (None on success); `stamp` is the text of
        Date.now(). */
    method HandleSubmit(user: Option<string>, stamp: string, upload: Result<string>, insertError: Option<string>)
      returns (requests: seq<Request>, sent: Option<BlogRow>)
      modifies this`imageUrl, this`loading, this`alerts, this`navigations
      ensures !Filled(old(title), old(content)) ==>
        requests == [] && sent == None && alerts == old(alerts) + [RequiredAlert]
        && loading == old(loading) && imageUrl == old(imageUrl) && navigations == old(navigations)
      ensures Filled(old(title), old(content)) ==> !loading
      ensures Filled(old(title), old(content)) && user.None? ==>
        requests == [GetUser] && sent == None && alerts == old(alerts) + [LoginAlert]
        && imageUrl == old(imageUrl) && navigations == old(navigations)
      ensures Filled(old(title), old(content)) && user.Some? && imageFile.Some? && upload.Err? ==>
        requests == [GetUser, Upload(ImageBucket, UploadPath(stamp, imageFile.value))] && sent == None
        && alerts == old(alerts) + [FailedAlert + upload.reason] && imageUrl == old(imageUrl)
        && navigations == old(navigations)
      ensures Filled(old(title), old(content)) && user.Some? && imageFile.Some? && upload.Ok? ==>
        requests == [GetUser, Upload(ImageBucket, UploadPath(stamp, imageFile.value)), Insert("blogs")]
        && imageUrl == Some(upload.value)
        && sent == Some(BlogRow(title, slug, content, Some(upload.value), true, user.value))
      ensures Filled(old(title), old(content)) && user.Some? && imageFile.None? ==>
        requests == [GetUser, Insert("blogs")]
        && imageUrl == old(imageUrl) && sent == Some(BlogRow(title, slug, content, old(imageUrl), true, user.value))
      ensures Filled(old(title), old(content)) && user.Some? && (imageFile.None? || upload.Ok?) ==>
        && (insertError.None? ==> alerts == old(alerts) + [PublishedAlert] && navigations == old(navigations) + [BlogsRoute])
        && (insertError.Some? ==> alerts == old(alerts) + [FailedAlert + insertError.value] && navigations == old(navigations))
    {
      sent := None;
      if title == "" || content == "" {
        requests := [];
        alerts := alerts + [RequiredAlert];
        return;
      }
      loading := true;
      if user.None? {
        requests := [GetUser];
        loading := false;
        alerts := alerts + [LoginAlert];
        return;
      }
      var uploadedImageUrl := imageUrl;
      if imageFile.Some? {
        var path := UploadPath(stamp, imageFile.value);
        requests := [GetUser, Upload(ImageBucket, path)];
        if upload.Err? {
          alerts := alerts + [FailedAlert + upload.reason];
          loading := false;
          return;
        }
        uploadedImageUrl := Some(upload.value);
        imageUrl := uploadedImageUrl;
      } else {
        requests := [GetUser];
      }
      sent := Some(BlogRow(title, slug, content, uploadedImageUrl, true, user.value));
      requests := requests + [Insert("blogs")];
      if insertError.None? {
        alerts := alerts + [PublishedAlert];
        navigations := navigations + [BlogsRoute];
      } else {
        alerts := alerts + [FailedAlert + insertError.value];
      }
      loading := false;
    }
  }
}
