/**
 * Stepping through the images of a directory (modules/utils/img_loader.py):
 * `KnechtLoadImageController` lists the image files next to the file it was
 * given, keeps a current index that wraps at both ends, and hands the current
 * file to at most one load thread at a time.
 *
 * The filesystem is an oracle: whether a path is a file, and the entries
 * `glob('*.*')` yields, in order. The load thread itself is a slot that is
 * empty, running, or stopped but not yet cleared by its `finished` signal.
 */
module ImgLoader {
  import opened Wrappers

  /** A path as the sequence of its parts; `Path('.')` has no parts. */
  datatype Path = Path(parts: seq<string>)

  /** `path.parent`: the path without its last part (`.` stays `.`). */
  function Parent(p: Path): (r: Path)
    ensures p.parts != [] ==> r.parts + [p.parts[|p.parts| - 1]] == p.parts
    ensures p.parts == [] ==> r == p
  {
    if p.parts == [] then p else Path(p.parts[..|p.parts| - 1])
  }

  /** `path.name`. */
  function Name(p: Path): string
  {
    if p.parts == [] then "" else p.parts[|p.parts| - 1]
  }

  /** Index of the last `.` in `s`, or -1. */
  function LastDot(s: string): (i: int)
    ensures -1 <= i < |s|
    ensures i >= 0 ==> s[i] == '.'
    ensures forall j :: i < j < |s| ==> s[j] != '.'
  {
    if s == [] then -1
    else if s[|s| - 1] == '.' then |s| - 1
    else LastDot(s[..|s| - 1])
  }

  /** `path.suffix` of a name: from the last dot on, unless that dot starts or ends the name. */
  function Suffix(name: string): (r: string)
    ensures r == [] || (r[0] == '.' && '.' !in r[1..] && |r| >= 2)
    ensures '.' !in name ==> r == []
  {
    var i := LastDot(name);
    if 0 < i < |name| - 1 then name[i..] else ""
  }

  /** The suffix of `stem.ext` is `.ext` when the stem is not empty and the extension has no dot. */
  lemma SuffixOf(stem: string, ext: string)
    requires |stem| >= 1 && |ext| >= 1 && '.' !in ext
    ensures Suffix(stem + "." + ext) == "." + ext
  {
    var name := stem + "." + ext;
    var i := LastDot(name);
    assert name[|stem|] == '.';
    assert forall j :: |stem| < j < |name| ==> name[j] == ext[j - |stem| - 1];
    assert name[i..] == "." + ext;
  }

  /** `str.casefold()` on ASCII letters: upper case becomes lower case. */
  function Casefold(s: string): (r: string)
    ensures |r| == |s|
    ensures forall i :: 0 <= i < |s| ==> r[i] == if 'A' <= s[i] <= 'Z' then (s[i] as int + 32) as char else s[i]
  {
    if s == [] then [] else Casefold(s[..|s| - 1]) + [if 'A' <= s[|s| - 1] <= 'Z' then (s[|s| - 1] as int + 32) as char else s[|s| - 1]]
  }

  /** `FILE_TYPES`. */
  const FileTypes: seq<string> := [".png", ".jpg", ".jpeg", ".tif", ".tga", ".hdr", ".exr", ".psd"]

  predicate IsImageFile(p: Path)
  {
    Casefold(Suffix(Name(p))) in FileTypes
  }

  /** The entries of the listing that `list_img_files` keeps, in listing order. */
  function ImageFiles(listing: seq<Path>): (r: seq<Path>)
    ensures |r| <= |listing|
    ensures forall p :: p in r <==> p in listing && IsImageFile(p)
  {
    if listing == [] then []
    else
      var last := listing[|listing| - 1];
      var init := listing[..|listing| - 1];
      assert forall p :: p in listing <==> p in init || p == last;
      ImageFiles(init) + (if IsImageFile(last) then [last] else [])
  }

  /** One more entry of the listing: it is kept at the end exactly when it is an image file. */
  lemma ImageFilesStep(listing: seq<Path>, i: nat)
    requires i < |listing|
    ensures ImageFiles(listing[..i + 1]) ==
            ImageFiles(listing[..i]) + (if IsImageFile(listing[i]) then [listing[i]] else [])
  {
    assert listing[..i + 1][..i] == listing[..i];
  }

  /** `list.index(x)` for an element of the list: its first position. */
  function FirstIndex(list: seq<Path>, x: Path): (i: nat)
    requires x in list
    ensures i < |list| && list[i] == x
    ensures forall j :: 0 <= j < i ==> list[j] != x
  {
    if list[0] == x then 0 else 1 + FirstIndex(list[1..], x)
  }

  // ---------------------------------------------------------------------------
  // The controller as a state machine
  // ---------------------------------------------------------------------------

  /** The `img_loader` slot. */
  datatype Loader = NoLoader | Loading(file: Path, running: bool)

  /** What the controller asks of the outside world. */
  datatype Event =
    | NoImageFound          // img_view.no_image_found()
    | LoadStarted(file: Path) // a load thread started for `file`, with the 5 s timeout

  datatype LoaderState = LoaderState(imgDir: Path, imgList: seq<Path>, imgIndex: int, loader: Loader,
                                     events: seq<Event>)

  const InitialLoaderState := LoaderState(Path([]), [], 0, NoLoader, [])

  /** `_image_loader_available`: no thread is running. */
  predicate LoaderAvailable(s: LoaderState)
  {
    !(s.loader.Loading? && s.loader.running)
  }

  /** `create_image_load_thread`: dropped while the slot holds a thread, running or not. */
  function LoadRequested(s: LoaderState, file: Path): LoaderState
  {
    if s.loader.NoLoader? then s.(loader := Loading(file, true), events := s.events + [LoadStarted(file)])
    else s
  }

  /** `iterate_images`: wrap the index into the list, then ask for a load. */
  function Iterated(s: LoaderState): LoaderState
  {
    if s.imgList == [] then s.(events := s.events + [NoImageFound])
    else
      var i := if s.imgIndex < 0 then |s.imgList| - 1 else s.imgIndex;
      var j := if i >= |s.imgList| then 0 else i;
      LoadRequested(s.(imgIndex := j), s.imgList[j])
  }

  function Forward(s: LoaderState): LoaderState
  {
    if !LoaderAvailable(s) then s else Iterated(s.(imgIndex := s.imgIndex + 1))
  }

  function Back(s: LoaderState): LoaderState
  {
    if !LoaderAvailable(s) then s else Iterated(s.(imgIndex := s.imgIndex - 1))
  }

  /** `list_img_files`. */
  function FilesListed(s: LoaderState, current: Path, listing: seq<Path>): LoaderState
  {
    var list := ImageFiles(listing);
    s.(imgList := list, imgIndex := if current in list then FirstIndex(list, current) else 0)
  }

  /** `set_img_path`: the listing is that of the directory chosen here. */
  function PathSet(s: LoaderState, p: Path, isFile: bool, listing: seq<Path>): LoaderState
  {
    var t := s.(imgDir := if isFile then Parent(p) else p);
    Iterated(FilesListed(t, p, listing))
  }

  /** The load thread's `run` returned; its `finished` slot has not run yet. */
  function LoaderStopped(s: LoaderState): LoaderState
  {
    if s.loader.Loading? then s.(loader := s.loader.(running := false)) else s
  }

  /** `_img_loader_finished`. */
  function LoaderFinished(s: LoaderState): LoaderState
  {
    s.(loader := NoLoader)
  }

  // ---------------------------------------------------------------------------
  // Properties
  // ---------------------------------------------------------------------------

  /**
   * On an empty list `iterate_images` only reports that no image was found.
   * Otherwise the index ends inside the list: a negative one wraps to the last
   * image, one past the end to the first, and a load of exactly that image is
   * started iff the slot was empty.
   */
  lemma IteratedRules(s: LoaderState)
    ensures var r := Iterated(s);
      && r.imgList == s.imgList && r.imgDir == s.imgDir
      && (s.imgList == [] ==> r == s.(events := s.events + [NoImageFound]))
      && (s.imgList != [] ==>
            && 0 <= r.imgIndex < |s.imgList|
            && (0 <= s.imgIndex < |s.imgList| ==> r.imgIndex == s.imgIndex)
            && (s.imgIndex < 0 ==> r.imgIndex == |s.imgList| - 1)
            && (s.imgIndex >= |s.imgList| ==> r.imgIndex == 0)
            && (s.loader.NoLoader? ==>
                  r.loader == Loading(s.imgList[r.imgIndex], true) &&
                  r.events == s.events + [LoadStarted(s.imgList[r.imgIndex])])
            && (s.loader.Loading? ==> r.loader == s.loader && r.events == s.events))
  {
  }

  /** Forward from the last image shows the first; back from the first shows the last. */
  lemma WrapAround(s: LoaderState)
    requires s.imgList != [] && LoaderAvailable(s)
    ensures s.imgIndex == |s.imgList| - 1 ==> Forward(s).imgIndex == 0
    ensures s.imgIndex == 0 ==> Back(s).imgIndex == |s.imgList| - 1
    ensures 0 <= s.imgIndex < |s.imgList| - 1 ==> Forward(s).imgIndex == s.imgIndex + 1
    ensures 0 < s.imgIndex < |s.imgList| ==> Back(s).imgIndex == s.imgIndex - 1
  {
  }

  /** While a load thread runs, stepping in either direction changes nothing. */
  lemma BusyLoaderBlocksStepping(s: LoaderState)
    requires !LoaderAvailable(s)
    ensures Forward(s) == s && Back(s) == s
  {
  }

  /**
   * A thread that stopped but whose `finished` slot has not run yet lets the
   * index move, but the load request is dropped: no load starts.
   */
  lemma StoppedLoaderDropsRequest(s: LoaderState)
    requires s.loader.Loading? && !s.loader.running && s.imgList != []
    ensures Forward(s).events == s.events && Forward(s).loader == s.loader
    ensures Back(s).events == s.events && Back(s).loader == s.loader
  {
  }

  /**
   * Once the previous load has finished, stepping back undoes stepping
   * forward: the index returns to where it was and the same image loads again.
   */
  lemma {:induction false} ForwardThenBack(s: LoaderState)
    requires 0 <= s.imgIndex < |s.imgList| && s.loader.NoLoader?
    ensures var t := Back(LoaderFinished(LoaderStopped(Forward(s))));
      t.imgIndex == s.imgIndex && t.loader == Loading(s.imgList[s.imgIndex], true)
  {
    var f := Forward(s);
    IteratedRules(s.(imgIndex := s.imgIndex + 1));
    var g := LoaderFinished(LoaderStopped(f));
    assert g.imgList == s.imgList && g.loader.NoLoader?;
    IteratedRules(g.(imgIndex := g.imgIndex - 1));
  }

  /** `list_img_files` starts at the current file's first position when it is listed, at 0 otherwise. */
  lemma ListedIndex(s: LoaderState, current: Path, listing: seq<Path>)
    ensures var r := FilesListed(s, current, listing);
      && (forall p :: p in r.imgList <==> p in listing && IsImageFile(p))
      && (current in listing && IsImageFile(current) ==>
            r.imgList[r.imgIndex] == current && forall j :: 0 <= j < r.imgIndex ==> r.imgList[j] != current)
      && (!(current in listing && IsImageFile(current)) ==> r.imgIndex == 0)
  {
  }

  /** `set_img_path` with an image file that is listed starts loading exactly that file. */
  lemma SetPathLoadsCurrent(s: LoaderState, p: Path, listing: seq<Path>)
    requires p in listing && IsImageFile(p) && s.loader.NoLoader?
    ensures var r := PathSet(s, p, true, listing);
      r.imgDir == Parent(p) && r.loader == Loading(p, true) && r.events == s.events + [LoadStarted(p)]
  {
    var t := FilesListed(s.(imgDir := Parent(p)), p, listing);
    ListedIndex(s.(imgDir := Parent(p)), p, listing);
    IteratedRules(t);
  }

  // ---------------------------------------------------------------------------
  // The controller object
  // ---------------------------------------------------------------------------

  class KnechtLoadImageController {
    var imgDir: Path
    var imgList: seq<Path>
    var imgIndex: int
    var loader: Loader
    var events: seq<Event>

    function State(): LoaderState
      reads this
    {
      LoaderState(imgDir, imgList, imgIndex, loader, events)
    }

    constructor ()
      ensures State() == InitialLoaderState
    {
      imgDir := Path([]);
      imgList := [];
      imgIndex := 0;
      loader := NoLoader;
      events := [];
    }

    /** `set_img_path`: `isFile` and `listing` are what the filesystem reports for this path. */
    method SetImgPath(p: Path, isFile: bool, listing: seq<Path>)
      modifies this
      ensures State() == PathSet(old(State()), p, isFile, listing)
    {
      if isFile {
        imgDir := Parent(p);
      } else {
        imgDir := p;
      }
      ListImgFiles(p, listing);
      IterateImages();
    }

    /** `list_img_files`: `listing` is what `img_dir.glob('*.*')` yields. */
    method ListImgFiles(current: Path, listing: seq<Path>)
      modifies this
      ensures State() == FilesListed(old(State()), current, listing)
    {
      imgIndex := 0;
      imgList := [];
      var i := 0;
      while i < |listing|
        invariant 0 <= i <= |listing|
        invariant imgList == ImageFiles(listing[..i])
        invariant imgIndex == 0
        invariant imgDir == old(imgDir) && loader == old(loader) && events == old(events)
      {
        ImageFilesStep(listing, i);
        if Casefold(Suffix(Name(listing[i]))) in FileTypes {
          imgList := imgList + [listing[i]];
        }
        i := i + 1;
      }
      assert listing[..i] == listing;
      if current in imgList {
        imgIndex := FirstIndex(imgList, current);
      }
    }

    /** `_image_loader_available`. */
    function ImageLoaderAvailable(): (r: bool)
      reads this
      ensures r <==> LoaderAvailable(State())
    {
      if loader.Loading? && loader.running then false else true
    }

    method IterateFwd()
      modifies this
      ensures State() == Forward(old(State()))
    {
      if !ImageLoaderAvailable() {
        return;
      }
      imgIndex := imgIndex + 1;
      IterateImages();
    }

    method IterateBck()
      modifies this
      ensures State() == Back(old(State()))
    {
      if !ImageLoaderAvailable() {
        return;
      }
      imgIndex := imgIndex - 1;
      IterateImages();
    }

    method IterateImages()
      modifies this
      ensures State() == Iterated(old(State()))
    {
      if imgList == [] {
        events := events + [NoImageFound];
        return;
      }
      if imgIndex < 0 {
        imgIndex := |imgList| - 1;
      }
      if imgIndex >= |imgList| {
        imgIndex := 0;
      }
      CreateImageLoadThread(imgList[imgIndex]);
    }

    /**
     * `current_image`: Python indexing, so a negative index counts from the
     * end; an index outside the list raises (None).
     */
    function CurrentImage(): (r: Option<Path>)
      reads this
      ensures r.Some? <==> -|imgList| <= imgIndex < |imgList|
      ensures r.Some? ==> r.value in imgList
      ensures 0 <= imgIndex < |imgList| ==> r == Some(imgList[imgIndex])
      ensures -|imgList| <= imgIndex < 0 ==> r == Some(imgList[|imgList| + imgIndex])
    {
      if 0 <= imgIndex < |imgList| then Some(imgList[imgIndex])
      else if -|imgList| <= imgIndex < 0 then Some(imgList[|imgList| + imgIndex])
      else None
    }

    method CreateImageLoadThread(file: Path)
      modifies this
      ensures State() == LoadRequested(old(State()), file)
    {
      if loader.NoLoader? {
        loader := Loading(file, true);
        events := events + [LoadStarted(file)];
      }
    }

    /** The thread's `run` returned. */
    method LoaderThreadStopped()
      modifies this
      ensures State() == LoaderStopped(old(State()))
    {
      if loader.Loading? {
        loader := loader.(running := false);
      }
    }

    /** `_img_loader_finished`. */
    method ImgLoaderFinished()
      modifies this
      ensures State() == LoaderFinished(old(State()))
    {
      loader := NoLoader;
    }
  }
}
