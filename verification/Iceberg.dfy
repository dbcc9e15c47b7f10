/** Resolving an Iceberg table to its data files (playground/src/iceberg.rs). */
module Iceberg {
  import opened Prelude
  import opened Trimming

  // ---- rebasing a path -----------------------------------------------------------------------

  predicate SchemeAt(s: string, i: nat) {
    i + 3 <= |s| && s[i] == ':' && s[i + 1] == '/' && s[i + 2] == '/'
  }

  /** `s.find("://")`. */
  function FindScheme(s: string): (k: Option<nat>)
    ensures k.Some? ==> SchemeAt(s, k.value) && forall j :: 0 <= j < k.value ==> !SchemeAt(s, j)
    ensures k.None? ==> forall j: nat :: !SchemeAt(s, j)
  {
    FindFrom(s, 0)
  }

  function FindFrom(s: string, i: nat): (k: Option<nat>)
    ensures k.Some? ==> SchemeAt(s, k.value) && i <= k.value && forall j :: i <= j < k.value ==> !SchemeAt(s, j)
    ensures k.None? ==> forall j: nat :: i <= j ==> !SchemeAt(s, j)
    decreases |s| - i
  {
    if SchemeAt(s, i) then Some(i) else if i < |s| then FindFrom(s, i + 1) else None
  }

  /** Without the scheme. */
  function Strip(s: string): string {
    match FindScheme(s)
    case Some(i) => s[i + 3..]
    case None => s
  }

  function Bare(s: string): string { TrimEnd(s, '/') }

  function Rebase(path: string, location: string, base: string): string {
    var sp, sl := Strip(path), Strip(Bare(location));
    if sl <= sp then Bare(base) + "/" + TrimStart(sp[|sl|..], '/') else path
  }

  ghost predicate NoSlash(r: string) { r == [] || r[0] != '/' }

  /** The scheme that counts is the one of `a`, not one further down the path. */
  ghost predicate SchemeIsIn(a: string, r: string) {
    FindScheme(a).Some? || FindScheme(r).None?
  }

  lemma {:induction false} SchemeShift(a: string, r: string, i: nat)
    ensures i + 3 <= |a| ==> (SchemeAt(a + r, i) <==> SchemeAt(a, i))
    ensures i >= |a| ==> (SchemeAt(a + r, i) <==> SchemeAt(r, i - |a|))
  {
  }

  lemma {:induction false} StripFirst(s: string, k: nat)
    requires SchemeAt(s, k) && forall j :: 0 <= j < k ==> !SchemeAt(s, j)
    ensures Strip(s) == s[k + 3..]
  {
  }

  lemma {:induction false} StripNone(s: string)
    requires forall j: nat :: !SchemeAt(s, j)
    ensures Strip(s) == s
  {
  }

  /** Stripping the scheme leaves the tail of a path alone. */
  lemma {:induction false} StripTail(a: string, x: string)
    requires FindScheme(a).Some?
    ensures Strip(a + x) == Strip(a) + x
  {
    var k := FindScheme(a).value;
    forall j | 0 <= j <= k ensures SchemeAt(a + x, j) <==> SchemeAt(a, j) { SchemeShift(a, x, j); }
    StripFirst(a + x, k);
    assert (a + x)[k + 3..] == a[k + 3..] + x;
  }

  lemma {:induction false} StripPlain(a: string, r: string)
    requires FindScheme(a).None? && FindScheme(r).None? && NoSlash(r) && (a != [] ==> a[|a| - 1] != '/')
    ensures Strip(a + "/" + r) == a + "/" + r
  {
    var s := a + "/" + r;
    forall j: nat ensures !SchemeAt(s, j) {
      if j + 3 <= |a| {
        SchemeShift(a, "/" + r, j);
        assert s == a + ("/" + r);
      } else if j > |a| {
        SchemeShift(a + "/", r, j);
      }
    }
    StripNone(s);
  }

  lemma {:induction false} StripUnder(a: string, r: string)
    requires SchemeIsIn(a, r) && NoSlash(r) && (a != [] ==> a[|a| - 1] != '/')
    ensures Strip(a + "/" + r) == Strip(a) + "/" + r
  {
    hide Strip;
    if FindScheme(a).Some? {
      StripTail(a, "/" + r);
      assert a + ("/" + r) == a + "/" + r;
      assert Strip(a) + ("/" + r) == Strip(a) + "/" + r;
    } else {
      StripPlain(a, r);
      StripNone(a);
    }
  }

  /** A path under the location is moved to the same place under the base. */
  lemma {:induction false} RebaseUnder(location: string, base: string, r: string)
    requires NoSlash(r) && SchemeIsIn(Bare(location), r)
    ensures Rebase(Bare(location) + "/" + r, location, base) == Bare(base) + "/" + r
  {
    hide Strip, SchemeIsIn;
    var a := Bare(location);
    TrimEndShape(location, '/');
    StripUnder(a, r);
    var sp, sl := Strip(a + "/" + r), Strip(a);
    assert sp[|sl|..] == "/" + r;
    assert ("/" + r)[1..] == r;
    assert TrimStart("/" + r, '/') == TrimStart(r, '/') == r;
  }

  lemma {:induction false} RebaseBelow(location: string, base: string, r: string)
    requires FindScheme(Bare(location)).Some?
    ensures Rebase(Bare(location) + "/" + r, location, base) == Bare(base) + "/" + TrimStart(r, '/')
  {
    hide Strip;
    var a := Bare(location);
    StripTail(a, "/" + r);
    assert a + ("/" + r) == a + "/" + r;
    assert (Strip(a) + ("/" + r))[|Strip(a)|..] == "/" + r;
    assert ("/" + r)[1..] == r;
  }

  /** Between two URLs, rebasing and rebasing back is the identity on a path under the location if and
      only if the path does not repeat the slash there. */
  lemma {:induction false} UrlRoundTrip(location: string, base: string, r: string)
    requires FindScheme(Bare(location)).Some? && FindScheme(Bare(base)).Some?
    ensures var p := Bare(location) + "/" + r;
            Rebase(Rebase(p, location, base), base, location) == p <==> NoSlash(r)
  {
    hide Rebase;
    var a, t := Bare(location), TrimStart(r, '/');
    TrimStartShape(r, '/');
    RebaseBelow(location, base, r);
    RebaseUnder(base, location, t);
    assert (a + "/" + t)[|a| + 1..] == t && (a + "/" + r)[|a| + 1..] == r;
  }

  /** Between a location without a scheme and a URL, exactly these paths under the location come back: those
      that hold no scheme and do not repeat the slash, and those that are taken for paths elsewhere on both
      ways. */
  lemma {:induction false} PlainRoundTrip(location: string, base: string, r: string)
    requires FindScheme(Bare(location)).None? && FindScheme(Bare(base)).Some?
    ensures var p := Bare(location) + "/" + r;
            Rebase(Rebase(p, location, base), base, location) == p <==>
            if FindScheme(p).None? then NoSlash(r)
            else !(Bare(location) <= Strip(p)) && !(Strip(Bare(base)) <= Strip(p))
  {
    hide Strip, TrimEnd;
    var a, b := Bare(location), Bare(base);
    var p := a + "/" + r;
    StripNone(a);
    if FindScheme(p).None? {
      StripNone(p);
      assert p[|a|..] == "/" + r && ("/" + r)[1..] == r;
      MovedBack(location, base, r);
    } else {
      StripIsShort(location, r);
      if a <= Strip(p) {
        MovedBack(location, base, Strip(p)[|a|..]);
        TrimStartShape(Strip(p)[|a|..], '/');
        TooShort(a, TrimStart(Strip(p)[|a|..], '/'), r);
      } else if Strip(b) <= Strip(p) {
        TrimStartShape(Strip(p)[|Strip(b)|..], '/');
        TooShort(a, TrimStart(Strip(p)[|Strip(b)|..], '/'), r);
      }
    }
  }

  lemma {:induction false} TooShort(a: string, t: string, r: string)
    requires |t| < |r|
    ensures a + "/" + t != a + "/" + r
  {
    assert |a + "/" + t| < |a + "/" + r|;
  }

  /** A path moved to a URL comes back without the slashes it began with. */
  lemma {:induction false} MovedBack(location: string, base: string, r: string)
    requires FindScheme(Bare(base)).Some?
    ensures var a, t := Bare(location), TrimStart(r, '/');
            Rebase(Bare(base) + "/" + t, base, location) == a + "/" + t && (a + "/" + t == a + "/" + r <==> NoSlash(r))
  {
    hide Rebase, TrimEnd;
    var a, t := Bare(location), TrimStart(r, '/');
    TrimStartShape(r, '/');
    RebaseUnder(base, location, t);
    assert (a + "/" + t)[|a| + 1..] == t && (a + "/" + r)[|a| + 1..] == r;
  }

  lemma {:induction false} StripIsShort(location: string, r: string)
    requires FindScheme(Bare(location)).None? && FindScheme(Bare(location) + "/" + r).Some?
    ensures |Strip(Bare(location) + "/" + r)| < |r|
  {
    var a := Bare(location);
    TrimEndShape(location, '/');
    var p := a + "/" + r;
    var k := FindScheme(p).value;
    assert !SchemeAt(a, k);
  }

  /** Behind a base that neither ends in a slash nor is followed by one, only the tail can bring a scheme in. */
  lemma {:induction false} SchemeIsInTail(base: string, t: string)
    requires FindScheme(Bare(base)).None? && NoSlash(t)
    ensures FindScheme(Bare(base) + "/" + t).None? <==> FindScheme(t).None?
  {
    var b := Bare(base);
    TrimEndShape(base, '/');
    var s := b + "/" + t;
    if FindScheme(t).None? {
      StripPlain(b, t);
      NoSchemeIn(s);
    } else {
      SchemeShift(b + "/", t, |b| + 1 + FindScheme(t).value);
    }
  }

  lemma {:induction false} NoSchemeIn(s: string)
    requires Strip(s) == s
    ensures FindScheme(s).None?
  {
  }

  /** A path moved to a base without a scheme comes back without the slashes it began with, if the tail holds no
      scheme, and shortened or not at all otherwise. */
  lemma {:induction false} BackFromPlain(location: string, base: string, t: string)
    requires FindScheme(Bare(base)).None? && NoSlash(t)
    ensures var a, x := Bare(location), Bare(base) + "/" + t;
            var y := Rebase(x, base, location);
            if FindScheme(t).None? then y == a + "/" + t else y == x || |y| < |a + "/" + t|
  {
    hide TrimEnd, FindScheme;
    var b, x := Bare(base), Bare(base) + "/" + t;
    StripNone(b);
    SchemeIsInTail(base, t);
    if FindScheme(t).None? {
      RebaseUnder(base, location, t);
    } else {
      StripIsShort(base, t);
      if b <= Strip(x) { TrimStartShape(Strip(x)[|b|..], '/'); }
    }
  }

  /** From a URL to a base without a scheme, exactly the paths come back that hold no further scheme and do not
      repeat the slash. */
  lemma {:induction false} UrlToPlain(location: string, base: string, r: string)
    requires FindScheme(Bare(location)).Some? && FindScheme(Bare(base)).None?
    ensures var p := Bare(location) + "/" + r;
            Rebase(Rebase(p, location, base), base, location) == p <==> NoSlash(r) && FindScheme(r).None?
  {
    hide Rebase, TrimEnd, FindScheme;
    var a, t := Bare(location), TrimStart(r, '/');
    TrimStartShape(r, '/');
    RebaseBelow(location, base, r);
    BackFromPlain(location, base, t);
    assert (a + "/" + t)[|a| + 1..] == t && (a + "/" + r)[|a| + 1..] == r;
    if FindScheme(t).Some? { PlainIsNotUrl(a, Bare(base), r, t); }
  }

  /** A base without a scheme does not begin a path under a URL and leave no more than its tail. */
  lemma {:induction false} PlainIsNotUrl(a: string, b: string, r: string, t: string)
    requires FindScheme(a).Some? && FindScheme(b).None? && |t| <= |r|
    ensures b + "/" + t != a + "/" + r
  {
    var k := FindScheme(a).value;
    assert !SchemeAt(b, k);
    var x, p := b + "/" + t, a + "/" + r;
    assert forall i :: k <= i < k + 3 ==> p[i] == a[i];
    assert |b| >= |a| ==> forall i :: k <= i < k + 3 ==> x[i] == b[i];
  }

  lemma {:induction false} Moves(path: string, location: string, base: string)
    ensures var sp, sl := Strip(path), Strip(Bare(location));
            Rebase(path, location, base)
            == if sl <= sp then Bare(base) + "/" + TrimStart(sp[|sl|..], '/') else path
  {
  }

  /** Without a scheme anywhere. */
  lemma {:induction false} NoSchemeAtAll(location: string, base: string, r: string)
    requires FindScheme(Bare(base)).None? && FindScheme(Bare(location) + "/" + r).None?
    ensures var p := Bare(location) + "/" + r;
            Rebase(Rebase(p, location, base), base, location) == p <==> NoSlash(r)
  {
    hide TrimEnd, FindScheme, Strip, Rebase;
    var a, t := Bare(location), TrimStart(r, '/');
    var p := a + "/" + r;
    FrontHasNoScheme(a, "/" + r);
    assert p == a + ("/" + r);
    StripNone(a);
    StripNone(p);
    Moves(p, location, base);
    TrimStartShape(r, '/');
    assert p[|a|..] == "/" + r && ("/" + r)[1..] == r;
    TailHasNoScheme(a, r, t);
    BackFromPlain(location, base, t);
    assert (a + "/" + t)[|a| + 1..] == t && (a + "/" + r)[|a| + 1..] == r;
  }

  lemma {:induction false} FrontHasNoScheme(a: string, x: string)
    requires FindScheme(a + x).None?
    ensures FindScheme(a).None?
  {
    if FindScheme(a).Some? { SchemeShift(a, x, FindScheme(a).value); }
  }

  /** With a scheme behind the location only. */
  lemma {:induction false} SchemeBelow(location: string, base: string, r: string)
    requires FindScheme(Bare(location)).None? && FindScheme(Bare(base)).None?
    requires FindScheme(Bare(location) + "/" + r).Some?
    ensures var p := Bare(location) + "/" + r;
            Rebase(Rebase(p, location, base), base, location) == p <==>
            !(Bare(location) <= Strip(p)) && !(Bare(base) <= Strip(p))
  {
    hide TrimEnd, FindScheme, Strip, Rebase, TrimStart;
    var a, b := Bare(location), Bare(base);
    var p := a + "/" + r;
    StripNone(a);
    StripNone(b);
    StripIsShort(location, r);
    Moves(p, location, base);
    Moves(p, base, location);
    if a <= Strip(p) {
      var t := TrimStart(Strip(p)[|a|..], '/');
      TrimStartShape(Strip(p)[|a|..], '/');
      BackFromPlain(location, base, t);
      NotItsOwnTail(base, p, |a|, t);
      TooShort(a, t, r);
    } else if b <= Strip(p) {
      TrimStartShape(Strip(p)[|b|..], '/');
      TooShort(a, TrimStart(Strip(p)[|b|..], '/'), r);
    }
  }

  lemma {:induction false} TailHasNoScheme(a: string, r: string, t: string)
    requires FindScheme(a + "/" + r).None? && |t| <= |r| && t == r[|r| - |t|..]
    ensures FindScheme(t).None?
  {
    var p := a + "/" + r;
    var n := |p| - |t|;
    assert p[..n] + t == p;
    if FindScheme(t).Some? { SchemeShift(p[..n], t, n + FindScheme(t).value); }
  }

  /** A path is no base without a scheme, a slash and what remains of the path without its scheme. */
  lemma {:induction false} NotItsOwnTail(base: string, p: string, n: nat, t: string)
    requires FindScheme(Bare(base)).None? && FindScheme(p).Some? && n <= |Strip(p)|
    requires |t| <= |Strip(p)| - n
    ensures Bare(base) + "/" + t != p
  {
    var b, k := Bare(base), FindScheme(p).value;
    TrimEndShape(base, '/');
    var x := b + "/" + t;
    assert !SchemeAt(b, k);
    assert |b| >= k + 3 ==> b[k] == x[k] && b[k + 1] == x[k + 1] && b[k + 2] == x[k + 2];
    assert |b| == k + 2 ==> b[k + 1] == x[k + 1];
  }

  /** The paths under the location that come back, for every location and base: from a URL those that do not
      repeat the slash, and hold no further scheme if the base has none; from a location without a scheme those
      that hold none either and do not repeat the slash, and those taken for paths elsewhere both ways. */
  ghost predicate ComesBack(location: string, base: string, r: string) {
    var a, b := Bare(location), Bare(base);
    var p := a + "/" + r;
    if FindScheme(a).Some? then NoSlash(r) && (FindScheme(b).Some? || FindScheme(r).None?)
    else if FindScheme(p).None? then NoSlash(r)
    else !(a <= Strip(p)) && !(Strip(b) <= Strip(p))
  }

  lemma {:induction false} RebaseRoundTrip(location: string, base: string, r: string)
    ensures var p := Bare(location) + "/" + r;
            Rebase(Rebase(p, location, base), base, location) == p <==> ComesBack(location, base, r)
  {
    hide Rebase, Strip, FindScheme;
    if FindScheme(Bare(base)).Some? {
      if FindScheme(Bare(location)).Some? {
        UrlRoundTrip(location, base, r);
      } else {
        PlainRoundTrip(location, base, r);
      }
    } else if FindScheme(Bare(location)).Some? {
      UrlToPlain(location, base, r);
    } else {
      StripNone(Bare(base));
      if FindScheme(Bare(location) + "/" + r).None? {
        NoSchemeAtAll(location, base, r);
      } else {
        SchemeBelow(location, base, r);
      }
    }
  }

  /** The path is the location, or continues it behind a slash. */
  ghost predicate Under(path: string, location: string) {
    var sp, sl := Strip(path), Strip(Bare(location));
    sl <= sp && (sp == sl || sp[|sl|] == '/')
  }

  /** A path outside the location is left alone if and only if its text does not merely continue the
      location's: nothing checks that the location ends where a path segment ends. */
  lemma {:induction false} OutsideIsLeftAlone(path: string, location: string, base: string)
    requires !Under(path, location)
    ensures Rebase(path, location, base) == path <==> !(Strip(Bare(location)) <= Strip(path))
  {
    if Strip(Bare(location)) <= Strip(path) { NeighbourIsMoved(path, location, base); }
  }

  /** A neighbour whose name goes on is moved below the base. */
  lemma {:induction false} NeighbourIsMoved(path: string, location: string, base: string)
    requires !Under(path, location) && Strip(Bare(location)) <= Strip(path)
    ensures var rest := Strip(path)[|Strip(Bare(location))|..];
            Rebase(path, location, base) == Bare(base) + "/" + rest && Rebase(path, location, base) != path
  {
    var sp, sl, b := Strip(path), Strip(Bare(location)), Bare(base);
    var rest := sp[|sl|..];
    NoSlashAtEnd(location);
    TrimEndShape(base, '/');
  }

  lemma {:induction false} NoSlashAtEnd(location: string)
    ensures var sl := Strip(Bare(location)); sl != [] ==> sl[|sl| - 1] != '/'
  {
    TrimEndShape(location, '/');
  }

  // ---- the data files of the current snapshot --------------------------------------------------

  datatype ListEntry = ListEntry(content: Option<int>, path: Option<string>)

  datatype DataFile = DataFile(fileContent: Option<int>, filePath: Option<string>)

  datatype Entry = Entry(status: Option<int>, file: Option<DataFile>)

  predicate IsData(content: Option<int>) {
    content.None? || content.value == 0
  }

  predicate IsLive(e: Entry) {
    e.status != Some(2) && e.file.Some?
  }

  datatype Table = Table(location: string, base: string)

  /** The paths of the manifests, in order. */
  function ManifestPaths(t: Table, list: seq<ListEntry>): seq<string> {
    if list == [] then []
    else
      var n := |list| - 1;
      ManifestPaths(t, list[..n]) + if list[n].path.Some? then [Rebase(list[n].path.value, t.location, t.base)] else []
  }

  /** The live files of one manifest that carry a path, in order. */
  function LiveFiles(t: Table, entries: seq<Entry>): seq<string> {
    if entries == [] then []
    else
      var n := |entries| - 1;
      var e := entries[n];
      LiveFiles(t, entries[..n]) +
      if IsLive(e) && e.file.value.filePath.Some? then [Rebase(e.file.value.filePath.value, t.location, t.base)] else []
  }

  /** Deleted (status 2), without a file, or with a file of content 0. */
  predicate CarriesNoDeletes(e: Entry) {
    e.status == Some(2) || e.file.None? || e.file.value.fileContent == None || e.file.value.fileContent == Some(0)
  }

  predicate NoDeletes(entries: seq<Entry>) {
    forall i :: 0 <= i < |entries| ==> CarriesNoDeletes(entries[i])
  }

  /** `fetch` yields the entries of a manifest, or nothing when it cannot be read. */
  predicate Readable(fetch: string -> Option<seq<Entry>>, paths: seq<string>) {
    forall i :: 0 <= i < |paths| ==> fetch(paths[i]).Some? && NoDeletes(fetch(paths[i]).value)
  }

  function SnapshotFiles(t: Table, fetch: string -> Option<seq<Entry>>, paths: seq<string>): seq<string> {
    if paths == [] then []
    else
      var n := |paths| - 1;
      var entries := fetch(paths[n]);
      SnapshotFiles(t, fetch, paths[..n]) + if entries.Some? then LiveFiles(t, entries.value) else []
  }

  /** The table can be read without applying deletes, and it is not empty. */
  predicate CopyOnWrite(t: Table, list: seq<ListEntry>, fetch: string -> Option<seq<Entry>>) {
    && (forall i :: 0 <= i < |list| ==> list[i].content == None || list[i].content == Some(0))
    && Readable(fetch, ManifestPaths(t, list))
    && SnapshotFiles(t, fetch, ManifestPaths(t, list)) != []
  }

  /** The manifest-list loop. */
  method ReadManifestList(t: Table, list: seq<ListEntry>) returns (r: Result<seq<string>>)
    ensures r.Ok? <==> forall i :: 0 <= i < |list| ==> list[i].content == None || list[i].content == Some(0)
    ensures r.Ok? ==> r.value == ManifestPaths(t, list)
  {
    hide Rebase;
    var manifests := [];
    for k := 0 to |list|
      invariant forall i :: 0 <= i < k ==> IsData(list[i].content)
      invariant manifests == ManifestPaths(t, list[..k])
    {
      if !IsData(list[k].content) { return Err("delete manifests"); }
      assert list[..k + 1][..k] == list[..k];
      if list[k].path.Some? { manifests := manifests + [Rebase(list[k].path.value, t.location, t.base)]; }
    }
    assert list[..|list|] == list;
    return Ok(manifests);
  }

  /** The loop over one manifest; `files` is what the earlier ones gave. */
  method ReadManifest(t: Table, entries: seq<Entry>, files: seq<string>) returns (r: Result<seq<string>>)
    ensures r.Ok? <==> NoDeletes(entries)
    ensures r.Ok? ==> r.value == files + LiveFiles(t, entries)
  {
    hide Rebase;
    var out := files;
    for k := 0 to |entries|
      invariant NoDeletes(entries[..k]) && out == files + LiveFiles(t, entries[..k])
    {
      assert entries[..k + 1][..k] == entries[..k] && entries[..k + 1][k] == entries[k];
      var e := entries[k];
      if e.status == Some(2) { continue; }
      if e.file.None? { continue; }
      if !IsData(e.file.value.fileContent) { return Err("delete files"); }
      if e.file.value.filePath.Some? { out := out + [Rebase(e.file.value.filePath.value, t.location, t.base)]; }
    }
    assert entries[..|entries|] == entries;
    return Ok(out);
  }

  /** The loops of `load`: refuses exactly the tables that need deletes applied, that cannot be read or
      that are empty, and otherwise lists the live files in order. */
  method Load(t: Table, list: seq<ListEntry>, fetch: string -> Option<seq<Entry>>) returns (r: Result<seq<string>>)
    ensures r.Ok? <==> CopyOnWrite(t, list, fetch)
    ensures r.Ok? ==> r.value == SnapshotFiles(t, fetch, ManifestPaths(t, list))
  {
    hide Rebase, NoDeletes, LiveFiles, ManifestPaths;
    var listed := ReadManifestList(t, list);
    if listed.Err? { return Err(listed.error); }
    var manifests := listed.value;
    var files := [];
    for k := 0 to |manifests|
      invariant Readable(fetch, manifests[..k]) && files == SnapshotFiles(t, fetch, manifests[..k])
    {
      assert manifests[..k + 1][..k] == manifests[..k] && manifests[..k + 1][k] == manifests[k];
      var entries := fetch(manifests[k]);
      if entries.None? { return Err("manifest cannot be read"); }
      var read := ReadManifest(t, entries.value, files);
      if read.Err? { return Err(read.error); }
      files := read.value;
    }
    assert manifests[..|manifests|] == manifests;
    if files == [] { return Err("no data files"); }
    return Ok(files);
  }

  // ---- in their order ----------------------------------------------------------------------------

  /** The paths of two lists come one after the other, and an entry gives its rebased path if it has one. */
  lemma {:induction false} ManifestsInOrder(t: Table, a: seq<ListEntry>, b: seq<ListEntry>)
    ensures ManifestPaths(t, a + b) == ManifestPaths(t, a) + ManifestPaths(t, b)
    ensures |b| == 1 && b[0].path.None? ==> ManifestPaths(t, b) == []
    ensures |b| == 1 && b[0].path.Some? ==> ManifestPaths(t, b) == [Rebase(b[0].path.value, t.location, t.base)]
    decreases |b|
  {
    hide Rebase;
    if b == [] {
      assert a + b == a;
    } else {
      var n := |b| - 1;
      ManifestsInOrder(t, a, b[..n]);
      assert (a + b)[..|a| + n] == a + b[..n] && (a + b)[|a| + n] == b[n];
      if n == 0 { assert b[..0] == []; }
    }
  }

  /** So do the files of two manifests; an entry gives its rebased path unless it is deleted or has none. */
  lemma {:induction false} FilesInOrder(t: Table, a: seq<Entry>, b: seq<Entry>)
    ensures LiveFiles(t, a + b) == LiveFiles(t, a) + LiveFiles(t, b)
    ensures |b| == 1 ==>
              if b[0].status != Some(2) && b[0].file.Some? && b[0].file.value.filePath.Some?
              then LiveFiles(t, b) == [Rebase(b[0].file.value.filePath.value, t.location, t.base)]
              else LiveFiles(t, b) == []
    decreases |b|
  {
    hide Rebase;
    if b == [] {
      assert a + b == a;
    } else {
      var n := |b| - 1;
      FilesInOrder(t, a, b[..n]);
      assert (a + b)[..|a| + n] == a + b[..n] && (a + b)[|a| + n] == b[n];
      if n == 0 { assert b[..0] == []; }
    }
  }

  /** And the files of all manifests, in the order of their paths. */
  lemma {:induction false} SnapshotInOrder(t: Table, fetch: string -> Option<seq<Entry>>, a: seq<string>, p: string)
    ensures SnapshotFiles(t, fetch, a + [p])
            == SnapshotFiles(t, fetch, a) + if fetch(p).Some? then LiveFiles(t, fetch(p).value) else []
  {
    assert (a + [p])[..|a|] == a;
  }

  // ---- what the list holds ---------------------------------------------------------------------

  ghost predicate Lists(t: Table, fetch: string -> Option<seq<Entry>>, path: string, file: string, j: nat) {
    && fetch(path).Some? && j < |fetch(path).value|
    && var e := fetch(path).value[j];
       && e.status != Some(2) && e.file.Some? && e.file.value.filePath.Some?
       && file == Rebase(e.file.value.filePath.value, t.location, t.base)
  }

  ghost predicate Listed(t: Table, fetch: string -> Option<seq<Entry>>, paths: seq<string>, file: string) {
    exists i, j :: 0 <= i < |paths| && Lists(t, fetch, paths[i], file, j)
  }

  lemma {:induction false} LiveFilesAre(t: Table, entries: seq<Entry>, file: string)
    ensures file in LiveFiles(t, entries) <==>
            exists j :: 0 <= j < |entries| && IsLive(entries[j]) && entries[j].file.value.filePath.Some?
                        && file == Rebase(entries[j].file.value.filePath.value, t.location, t.base)
  {
    hide Rebase;
    if entries != [] {
      var n := |entries| - 1;
      LiveFilesAre(t, entries[..n], file);
      assert forall j :: 0 <= j < n ==> entries[..n][j] == entries[j];
    }
  }

  /** A file is listed if and only if a live entry of some manifest carries it. */
  lemma {:induction false} FilesAreTheLiveOnes(t: Table, fetch: string -> Option<seq<Entry>>, paths: seq<string>,
                                        file: string)
    ensures file in SnapshotFiles(t, fetch, paths) <==> Listed(t, fetch, paths, file)
  {
    hide Rebase, LiveFiles;
    if paths != [] {
      var n := |paths| - 1;
      FilesAreTheLiveOnes(t, fetch, paths[..n], file);
      if fetch(paths[n]).Some? { LiveFilesAre(t, fetch(paths[n]).value, file); }
      if file in SnapshotFiles(t, fetch, paths) {
        if file in SnapshotFiles(t, fetch, paths[..n]) {
          var i, j :| 0 <= i < n && Lists(t, fetch, paths[..n][i], file, j);
          assert Lists(t, fetch, paths[i], file, j);
        } else {
          var es := fetch(paths[n]).value;
          var j :| 0 <= j < |es| && IsLive(es[j]) && es[j].file.value.filePath.Some?
                   && file == Rebase(es[j].file.value.filePath.value, t.location, t.base);
          assert Lists(t, fetch, paths[n], file, j);
        }
      }
      if Listed(t, fetch, paths, file) {
        var i, j :| 0 <= i < |paths| && Lists(t, fetch, paths[i], file, j);
        if i < n { assert Lists(t, fetch, paths[..n][i], file, j); }
      }
    }
  }
}
