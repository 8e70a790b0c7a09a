/** The listing view model of the files page: the backend's directory listing,
    the case-insensitive folder-name filter and the choice of what the listing
    card shows (image grid, "Pasta vazia" or folder grid). */
module Listing {
  import opened Wrappers
  import opened JsStrings

  /** A leaf file; `code` identifies it, `name` is what is shown and deleted. */
  datatype Image = Image(name: string, code: string, url: string, category: string)

  /** A folder node with the images the backend reports inside it. */
  datatype Category = Category(id: string, name: string, slug: string, images: seq<Image>)

  datatype Pagination = Pagination(total: int, page: int, limit: int, totalPages: int)

  /** A directory listing; `images` is absent from some responses. */
  datatype FilesResponse = FilesResponse(categories: seq<Category>, images: Option<seq<Image>>, pagination: Pagination)

  // ---------------------------------------------------------------------------
  // Folder-name filter

  /** `cat.name.toLowerCase().includes(searchQuery.toLowerCase())` */
  predicate NameMatches(cat: Category, query: string) {
    Includes(ToLower(cat.name), ToLower(query))
  }

  /** `xs` is `ys` with some elements left out, the rest in their order. */
  predicate IsSubsequence<T(==)>(xs: seq<T>, ys: seq<T>)
    decreases |ys|
  {
    xs == [] || (ys != [] && ((xs[0] == ys[0] && IsSubsequence(xs[1..], ys[1..])) || IsSubsequence(xs, ys[1..])))
  }

  /** `categories.filter(cat => NameMatches(cat, query))` */
  function FilterByName(cats: seq<Category>, query: string): (r: seq<Category>)
    ensures IsSubsequence(r, cats)
    ensures forall c :: multiset(r)[c] == if NameMatches(c, query) then multiset(cats)[c] else 0
    ensures forall c :: c in r <==> c in cats && NameMatches(c, query)
    decreases |cats|
  {
    if cats == [] then []
    else
      var rest := FilterByName(cats[1..], query);
      assert cats == [cats[0]] + cats[1..];
      if NameMatches(cats[0], query) then [cats[0]] + rest else rest
  }

  /** `filteredCategories`: no listing yet gives no folders. */
  function FilteredCategories(files: Option<FilesResponse>, query: string): (r: seq<Category>)
    ensures files.None? ==> r == []
    ensures files.Some? ==> IsSubsequence(r, files.value.categories)
    ensures files.Some? ==> forall c :: c in r <==> c in files.value.categories && NameMatches(c, query)
    ensures files.Some? ==> forall c :: multiset(r)[c] == if NameMatches(c, query) then multiset(files.value.categories)[c] else 0
  {
    match files
    case None => []
    case Some(f) => FilterByName(f.categories, query)
  }

  /** An empty search keeps every folder, in the backend's order. */
  lemma {:induction false} EmptyQueryKeepsAll(cats: seq<Category>)
    ensures FilterByName(cats, "") == cats
    decreases |cats|
  {
    if cats != [] {
      EmptyQueryKeepsAll(cats[1..]);
      assert NameMatches(cats[0], "");
    }
  }

  /** Filtering the filtered list again changes nothing. */
  lemma {:induction false} FilterIdempotent(cats: seq<Category>, query: string)
    ensures FilterByName(FilterByName(cats, query), query) == FilterByName(cats, query)
    decreases |cats|
  {
    if cats != [] {
      FilterIdempotent(cats[1..], query);
    }
  }

  /** A folder "Shoes" is kept by the search "sho" and dropped by "xyz". */
  lemma ShoesExample()
    ensures var shoes := Category("1", "Shoes", "shoes", []);
            FilterByName([shoes], "sho") == [shoes] && FilterByName([shoes], "xyz") == []
  {
  }

  // ---------------------------------------------------------------------------
  // What the listing card shows

  datatype View =
    | Hidden                              // no listing card at all
    | ImageGrid(images: seq<Image>)       // a grid of image tiles
    | EmptyFolder                         // the "Pasta vazia" notice
    | FolderGrid(folders: seq<Category>)  // a grid of folder tiles (possibly none)

  /** `files && !loading && !error` */
  predicate ListingShown(files: Option<FilesResponse>, loading: bool, error: Option<string>) {
    files.Some? && !loading && !Truthy(error)
  }

  /** The response carries a non-empty list of images. */
  predicate HasImages(f: FilesResponse) {
    f.images.Some? && |f.images.value| > 0
  }

  /** The render branch of the listing card. */
  function SelectView(files: Option<FilesResponse>, loading: bool, error: Option<string>,
                      currentDir: string, query: string): (v: View)
    ensures v.Hidden? <==> !ListingShown(files, loading, error)
    ensures v.ImageGrid? <==> ListingShown(files, loading, error) && files.value.categories == []
                              && HasImages(files.value) && Trim(currentDir) != ""
    ensures v.ImageGrid? ==> v.images == files.value.images.value
    ensures v.EmptyFolder? <==> ListingShown(files, loading, error) && files.value.categories == []
                                && !(HasImages(files.value) && Trim(currentDir) != "")
    ensures v.FolderGrid? <==> ListingShown(files, loading, error) && files.value.categories != []
    ensures v.FolderGrid? ==> v.folders == FilteredCategories(files, query)
  {
    if !ListingShown(files, loading, error) then Hidden
    else
      var f := files.value;
      if f.categories == [] && HasImages(f) && Trim(currentDir) != "" then ImageGrid(f.images.value)
      else if f.categories == [] then EmptyFolder
      else FolderGrid(FilteredCategories(files, query))
  }

  /** At the root, or at a directory made only of whitespace, the image grid is
      never shown: a listing without folders there shows "Pasta vazia". */
  lemma NoImageGridAtRoot(f: FilesResponse, dir: string, query: string)
    requires forall i :: 0 <= i < |dir| ==> IsWhitespace(dir[i])
    requires f.categories == []
    ensures SelectView(Some(f), false, None, dir, query) == EmptyFolder
  {
  }

  /** The same listing of one image shows "Pasta vazia" at the root and the
      image grid inside "cat1". */
  lemma RootVersusLeafExample(img: Image, p: Pagination)
    ensures var f := FilesResponse([], Some([img]), p);
            SelectView(Some(f), false, None, "", "") == EmptyFolder
            && SelectView(Some(f), false, None, "cat1", "") == ImageGrid([img])
  {
  }

  /** A listing with folders shows the folder grid even when the search keeps none of them. */
  lemma FolderGridMayBeEmpty(p: Pagination)
    ensures var shoes := Category("1", "Shoes", "shoes", []);
            SelectView(Some(FilesResponse([shoes], None, p)), false, None, "", "xyz") == FolderGrid([])
  {
  }

  /** An error message that is the empty string does not hide the listing. */
  lemma EmptyErrorShowsListing(f: FilesResponse, dir: string, query: string)
    ensures !SelectView(Some(f), false, Some(""), dir, query).Hidden?
  {
  }
}
