/** The image storage-link fixer script: it makes `public/storage` a
    symbolic link to `storage/app/public`, lists a sample of the product
    images with the URLs they would be served under, and reports whether the
    link is in place. The file system is an input: the state of
    `public/storage` and whether the `symlink` call succeeds are given, and
    the console output is reduced to the values it prints. */
module StorageLinkFixer {
  import opened Strings
  import opened Php

  // ---------------------------------------------------------------- paths

  /** `array_diff_assoc($to, $from)` on two lists, in order: the segment at
      each index of `to` is kept unless `from` has the same segment at that
      index. */
  function DiffAssoc(to: seq<string>, from: seq<string>): (kept: seq<string>)
    ensures |kept| <= |to|
    ensures forall x | x in kept :: x in to
    decreases |to|
  {
    if |to| == 0 then []
    else
      var head := if |from| > 0 && from[0] == to[0] then [] else [to[0]];
      head + DiffAssoc(to[1..], if |from| > 0 then from[1..] else [])
  }

  /** `to[i]` survives `array_diff_assoc`: `from` has no entry at index
      `i`, or a different one. */
  predicate KeptAt(to: seq<string>, from: seq<string>, i: nat)
    requires i < |to|
  {
    i >= |from| || from[i] != to[i]
  }

  /** The indices from `i` on whose segment survives, in increasing order:
      a reference definition for `DiffAssoc` over indices. */
  ghost function KeptIndices(to: seq<string>, from: seq<string>, i: nat): seq<nat>
    requires i <= |to|
    decreases |to| - i
  {
    if i == |to| then []
    else (if KeptAt(to, from, i) then [i] else []) + KeptIndices(to, from, i + 1)
  }

  /** `from` with its first `i` entries removed (nothing left past its end). */
  function Drop(from: seq<string>, i: nat): seq<string> {
    if i < |from| then from[i..] else []
  }

  /** The kept indices lie in `[i, |to|)`, increase strictly, and are exactly
      the indices from `i` on whose segment survives. */
  lemma {:induction false} KeptIndicesExact(to: seq<string>, from: seq<string>, i: nat)
    requires i <= |to|
    ensures var idx := KeptIndices(to, from, i);
      && (forall j | 0 <= j < |idx| :: i <= idx[j] < |to|)
      && (forall j, k | 0 <= j < k < |idx| :: idx[j] < idx[k])
      && (forall n: nat | i <= n < |to| :: n in idx <==> KeptAt(to, from, n))
    decreases |to| - i
  {
    if i < |to| {
      KeptIndicesExact(to, from, i + 1);
    }
  }

  /** `DiffAssoc` on the suffixes from `i` picks the segments at the kept
      indices, in order. */
  lemma {:induction false} DiffAssocPicks(to: seq<string>, from: seq<string>, i: nat)
    requires i <= |to|
    ensures var kept := DiffAssoc(to[i..], Drop(from, i));
      var idx := KeptIndices(to, from, i);
      && |kept| == |idx|
      && forall j | 0 <= j < |idx| :: idx[j] < |to| && kept[j] == to[idx[j]]
    decreases |to| - i
  {
    KeptIndicesExact(to, from, i);
    if i < |to| {
      DiffAssocPicks(to, from, i + 1);
      var d := Drop(from, i);
      assert to[i..][0] == to[i] && to[i..][1..] == to[i + 1..];
      assert (if |d| > 0 then d[1..] else []) == Drop(from, i + 1) by {
        if i < |from| {
          assert d[1..] == from[i + 1..];
        }
      }
      assert (|d| > 0 && d[0] == to[i]) <==> !KeptAt(to, from, i);
    }
  }

  /** `array_diff_assoc($to, $from)` keeps, in order, exactly the segments
      `to[i]` for which `from` has no entry at `i` or a different one. */
  lemma DiffAssocKeepsInOrder(to: seq<string>, from: seq<string>)
    ensures var kept := DiffAssoc(to, from);
      var idx := KeptIndices(to, from, 0);
      && |kept| == |idx|
      && (forall j | 0 <= j < |idx| :: idx[j] < |to| && kept[j] == to[idx[j]])
      && (forall j, k | 0 <= j < k < |idx| :: idx[j] < idx[k])
      && (forall n: nat | n < |to| :: n in idx <==> KeptAt(to, from, n))
  {
    assert to[0..] == to;
    assert Drop(from, 0) == from;
    DiffAssocPicks(to, from, 0);
    KeptIndicesExact(to, from, 0);
  }

  /** `getRelativePath($from, $to)` as written: the segments
      `array_diff_assoc` keeps, joined with `/`. */
  function GetRelativePath(from: string, to: string): (r: string)
    ensures var kept := DiffAssoc(Split(to, '/'), Split(from, '/'));
      && (kept == [] ==> r == "")
      && (kept != [] ==> Split(r, '/') == kept)
  {
    var kept := DiffAssoc(Split(to, '/'), Split(from, '/'));
    SplitPartsFree(to, '/');
    SplitOfJoin(kept);
    Join(kept, '/')
  }

  /** Segments without `/` come back from their join. */
  lemma SplitOfJoin(parts: seq<string>)
    requires forall x | x in parts :: '/' !in x
    ensures parts == [] ==> Join(parts, '/') == ""
    ensures parts != [] ==> Split(Join(parts, '/'), '/') == parts
  {
    if parts != [] {
      SplitJoin(parts, '/');
    }
  }

  /** Every segment of the result is a segment of `to`: the function never
      produces `..`, so it cannot climb out of `from`. */
  lemma RelativePathSegments(from: string, to: string)
    ensures var kept := DiffAssoc(Split(to, '/'), Split(from, '/'));
      && GetRelativePath(from, to) == Join(kept, '/')
      && (forall x | x in kept :: x in Split(to, '/'))
      && (".." !in Split(to, '/') ==> ".." !in kept)
  {
  }

  lemma {:induction false} DiffAssocSelf(s: seq<string>)
    ensures DiffAssoc(s, s) == []
    decreases |s|
  {
    if |s| > 0 {
      DiffAssocSelf(s[1..]);
    }
  }

  /** A common prefix contributes nothing. */
  lemma {:induction false} DiffAssocCommonPrefix(p: seq<string>, a: seq<string>, b: seq<string>)
    ensures DiffAssoc(p + a, p + b) == DiffAssoc(a, b)
    decreases |p|
  {
    if |p| > 0 {
      assert (p + a)[1..] == p[1..] + a;
      assert (p + b)[1..] == p[1..] + b;
      assert DiffAssoc(p + a, p + b) == DiffAssoc(p[1..] + a, p[1..] + b);
      DiffAssocCommonPrefix(p[1..], a, b);
    } else {
      assert p + a == a && p + b == b;
    }
  }

  /** Past the end of `from` every segment of `to` is kept. */
  lemma {:induction false} DiffAssocBeyond(a: seq<string>)
    ensures DiffAssoc(a, []) == a
    decreases |a|
  {
    if |a| > 0 {
      DiffAssocBeyond(a[1..]);
    }
  }

  /** Equal paths give the empty path. */
  lemma RelativePathSame(p: string)
    ensures GetRelativePath(p, p) == ""
  {
    DiffAssocSelf(Split(p, '/'));
  }

  /** Below `from`, the result is the rest of `to`. */
  lemma RelativePathBelow(from: string, rest: string)
    ensures GetRelativePath(from, from + "/" + rest) == rest
  {
    assert from + "/" + rest == from + ['/'] + rest;
    SplitAppend(from, rest, '/');
    var f := Split(from, '/');
    assert f == f + [];
    DiffAssocCommonPrefix(f, Split(rest, '/'), []);
    DiffAssocBeyond(Split(rest, '/'));
    JoinSplit(rest, '/');
  }

  const PublicDir := "/public"
  const StorageDir := "/storage/app/public"

  const StorageSegments: seq<string> := ["storage", "app", "public"]

  lemma StorageSegmentsFree()
    ensures forall k | 0 <= k < |StorageSegments| :: '/' !in StorageSegments[k]
  {
  }

  lemma StorageJoin()
    ensures Join(StorageSegments, '/') == "storage/app/public"
  {
  }

  lemma StorageSegmentsSplit()
    ensures Split("storage/app/public", '/') == StorageSegments
  {
    StorageJoin();
    StorageSegmentsFree();
    SplitJoin(StorageSegments, '/');
  }

  /** The split of the fixer's storage path. */
  lemma StorageSplit(cwd: string)
    ensures Split(cwd + StorageDir, '/') == Split(cwd, '/') + StorageSegments
  {
    assert cwd + StorageDir == cwd + ['/'] + "storage/app/public";
    SplitAppend(cwd, "storage/app/public", '/');
    StorageSegmentsSplit();
  }

  /** The split of the fixer's public path. */
  lemma PublicSplit(cwd: string)
    ensures Split(cwd + PublicDir, '/') == Split(cwd, '/') + ["public"]
  {
    assert cwd + PublicDir == cwd + ['/'] + "public";
    SplitAppend(cwd, "public", '/');
    SplitFree("public", '/');
  }

  /** Past the shared `public`/`storage` position nothing of `storage/app/public`
      is dropped. */
  lemma StorageSegmentsKept()
    ensures DiffAssoc(StorageSegments, ["public"]) == StorageSegments
  {
    assert StorageSegments[1..] == ["app", "public"];
    DiffAssocBeyond(["app", "public"]);
  }

  /** The segments of the link target the fixer computes for its own two
      paths. */
  lemma LinkTargetSegments(cwd: string)
    ensures DiffAssoc(Split(cwd + StorageDir, '/'), Split(cwd + PublicDir, '/')) == StorageSegments
  {
    StorageSplit(cwd);
    PublicSplit(cwd);
    DiffAssocCommonPrefix(Split(cwd, '/'), StorageSegments, ["public"]);
    StorageSegmentsKept();
  }

  /** For the fixer's own two paths the link target is
      `storage/app/public`, whatever the working directory. */
  lemma LinkTargetAsWritten(cwd: string)
    ensures GetRelativePath(cwd + PublicDir, cwd + StorageDir) == "storage/app/public"
  {
    LinkTargetSegments(cwd);
    StorageJoin();
  }

  /** Read back, that target is the three storage segments. */
  lemma LinkTargetSplit(cwd: string)
    ensures Split(GetRelativePath(cwd + PublicDir, cwd + StorageDir), '/') == StorageSegments
  {
    LinkTargetSegments(cwd);
    StorageSegmentsFree();
    SplitJoin(StorageSegments, '/');
  }

  /** Where a relative link target leads: segments are appended to the
      link's directory, `..` going up one level. */
  function Resolve(base: seq<string>, rel: seq<string>): seq<string>
    decreases |rel|
  {
    if |rel| == 0 then base
    else if rel[0] == ".." then Resolve(if |base| > 0 then base[..|base| - 1] else [], rel[1..])
    else Resolve(base + [rel[0]], rel[1..])
  }

  lemma {:induction false} ResolveDown(base: seq<string>, rel: seq<string>)
    requires ".." !in rel
    ensures Resolve(base, rel) == base + rel
    decreases |rel|
  {
    if |rel| > 0 {
      ResolveDown(base + [rel[0]], rel[1..]);
      assert base + [rel[0]] + rel[1..] == base + rel;
    }
  }

  /** The link `public/storage` with target `storage/app/public` leads to
      `public/storage/app/public`, not to `storage/app/public`. */
  lemma LinkTargetMissesStorage(cwd: string)
    ensures var target := Split(GetRelativePath(cwd + PublicDir, cwd + StorageDir), '/');
      Resolve(Split(cwd + PublicDir, '/'), target)
        == Split(cwd, '/') + ["public", "storage", "app", "public"]
    ensures var target := Split(GetRelativePath(cwd + PublicDir, cwd + StorageDir), '/');
      Resolve(Split(cwd + PublicDir, '/'), target) != Split(cwd + StorageDir, '/')
  {
    LinkTargetSplit(cwd);
    PublicSplit(cwd);
    var p := Split(cwd, '/');
    ResolveDown(p + ["public"], StorageSegments);
    assert p + ["public"] + StorageSegments == p + ["public", "storage", "app", "public"];
    StorageSplit(cwd);
    assert |p + ["public", "storage", "app", "public"]| != |p + StorageSegments|;
  }

  /** The length of the longest common prefix of two segment lists. */
  function CommonPrefixLength(a: seq<string>, b: seq<string>): (n: nat)
    ensures n <= |a| && n <= |b| && a[..n] == b[..n]
    ensures n == |a| || n == |b| || a[n] != b[n]
    decreases |a|
  {
    if |a| > 0 && |b| > 0 && a[0] == b[0] then
      var m := CommonPrefixLength(a[1..], b[1..]);
      assert a[..m + 1] == [a[0]] + a[1..][..m];
      assert b[..m + 1] == [b[0]] + b[1..][..m];
      m + 1
    else 0
  }

  function Ups(n: nat): (r: seq<string>)
    ensures |r| == n && forall k | 0 <= k < n :: r[k] == ".."
  {
    seq(n, k => "..")
  }

  /** The relative target as evidently intended: up from `from` to the
      common ancestor, then down to `to`. */
  function RelativeSegments(from: seq<string>, to: seq<string>): seq<string> {
    var k := CommonPrefixLength(from, to);
    Ups(|from| - k) + to[k..]
  }

  /** `getRelativePath` as evidently intended: the segments of
      `RelativeSegments`, joined with `/`. */
  function RelativePath(from: string, to: string): (r: string)
    ensures var rel := RelativeSegments(Split(from, '/'), Split(to, '/'));
      && (rel == [] ==> r == "")
      && (rel != [] ==> Split(r, '/') == rel)
  {
    var rel := RelativeSegments(Split(from, '/'), Split(to, '/'));
    RelativeSegmentsFree(from, to);
    SplitOfJoin(rel);
    Join(rel, '/')
  }

  /** The intended segments hold no `/`: each is `..` or a segment of `to`. */
  lemma RelativeSegmentsFree(from: string, to: string)
    ensures forall x | x in RelativeSegments(Split(from, '/'), Split(to, '/')) :: '/' !in x
  {
    var f := Split(from, '/');
    var t := Split(to, '/');
    var k := CommonPrefixLength(f, t);
    SplitPartsFree(to, '/');
    forall x | x in RelativeSegments(f, t) ensures '/' !in x {
      if x in t[k..] {
        assert x in t;
      }
    }
  }

  lemma {:induction false} ResolveUps(base: seq<string>, n: nat, rest: seq<string>)
    requires n <= |base|
    ensures Resolve(base, Ups(n) + rest) == Resolve(base[..|base| - n], rest)
    decreases n
  {
    if n > 0 {
      assert (Ups(n) + rest)[0] == "..";
      assert (Ups(n) + rest)[1..] == Ups(n - 1) + rest;
      assert Resolve(base, Ups(n) + rest) == Resolve(base[..|base| - 1], Ups(n - 1) + rest);
      ResolveUps(base[..|base| - 1], n - 1, rest);
      assert base[..|base| - 1][..|base| - 1 - (n - 1)] == base[..|base| - n];
    } else {
      assert Ups(n) + rest == rest && base[..|base|] == base;
    }
  }

  /** Resolving the intended relative segments from `from` reaches `to`. */
  lemma ResolveRelativeSegments(from: seq<string>, to: seq<string>)
    requires ".." !in to
    ensures Resolve(from, RelativeSegments(from, to)) == to
  {
    var k := CommonPrefixLength(from, to);
    ResolveUps(from, |from| - k, to[k..]);
    assert ".." !in to[k..] by {
      forall x | x in to[k..] ensures x in to { }
    }
    ResolveDown(from[..k], to[k..]);
    assert from[..k] + to[k..] == to;
  }

  /** The corrected target, written out and read back, resolves from the
      link's directory to the storage directory. */
  lemma RelativePathRoundTrip(from: string, to: string)
    requires from != to
    requires ".." !in Split(to, '/')
    ensures Resolve(Split(from, '/'), Split(RelativePath(from, to), '/')) == Split(to, '/')
  {
    var f := Split(from, '/');
    var t := Split(to, '/');
    var rel := RelativeSegments(f, t);
    JoinSplit(from, '/');
    JoinSplit(to, '/');
    assert f != t;
    var k := CommonPrefixLength(f, t);
    assert f[..|f|] == f && t[..|t|] == t;
    assert |rel| == (|f| - k) + (|t| - k);
    SplitPartsFree(to, '/');
    assert forall x | x in rel :: '/' !in x by {
      forall x | x in rel ensures '/' !in x {
        if x in t[k..] {
          assert x in t;
        }
      }
    }
    SplitJoin(rel, '/');
    ResolveRelativeSegments(f, t);
  }

  lemma CorrectedJoin()
    ensures Join([".."] + StorageSegments, '/') == "../storage/app/public"
  {
  }

  /** For the fixer's paths the intended target is `../storage/app/public`. */
  lemma LinkTargetCorrected(cwd: string)
    ensures RelativePath(cwd + PublicDir, cwd + StorageDir) == "../storage/app/public"
  {
    StorageSplit(cwd);
    PublicSplit(cwd);
    var p := Split(cwd, '/');
    var f := p + ["public"];
    var t := p + StorageSegments;
    CommonPrefixLengthAfter(p, ["public"], StorageSegments);
    assert t[|p|..] == StorageSegments;
    assert Ups(1) == [".."];
    assert RelativeSegments(f, t) == [".."] + StorageSegments;
    CorrectedJoin();
  }

  lemma {:induction false} CommonPrefixLengthAfter(p: seq<string>, a: seq<string>, b: seq<string>)
    requires |a| > 0 && |b| > 0 && a[0] != b[0]
    ensures CommonPrefixLength(p + a, p + b) == |p|
    decreases |p|
  {
    if |p| > 0 {
      assert (p + a)[1..] == p[1..] + a;
      assert (p + b)[1..] == p[1..] + b;
      CommonPrefixLengthAfter(p[1..], a, b);
    }
  }

  // ----------------------------------------------------------- the link

  /** What `public/storage` is. */
  datatype Node = Symlink(target: string) | Directory | Absent

  datatype Disk = Disk(publicStorage: Node, storageDirExists: bool)

  /** `createStorageLink`: the storage directory is made if missing, then the
      link is attempted; `linked` is the outcome of `symlink`. */
  function CreateStorageLink(d: Disk, cwd: string, linked: bool): (d': Disk)
    ensures d'.storageDirExists
    ensures d'.publicStorage == (if linked then Symlink(GetRelativePath(cwd + PublicDir, cwd + StorageDir))
                                 else d.publicStorage)
  {
    var made := d.(storageDirExists := true);
    if linked then made.(publicStorage := Symlink(GetRelativePath(cwd + PublicDir, cwd + StorageDir)))
    else made
  }

  /** `checkStorageLink`: an existing link, valid or not, is kept; a real
      directory is removed; then the link is created. */
  function CheckStorageLink(d: Disk, cwd: string, linked: bool): (d': Disk)
    ensures d.publicStorage.Symlink? ==> d' == d
    ensures !d.publicStorage.Symlink? ==>
      d' == CreateStorageLink(d.(publicStorage := Absent), cwd, linked)
  {
    if d.publicStorage.Symlink? then d
    else
      var cleared := if d.publicStorage.Directory? then d.(publicStorage := Absent) else d;
      CreateStorageLink(cleared, cwd, linked)
  }

  datatype Status = Ready | NeedsFix

  /** `generateStorageLink`: READY when `public/storage` is a link or a
      directory. */
  function FinalStatus(d: Disk): (s: Status)
    ensures s == Ready <==> d.publicStorage.Symlink? || d.publicStorage.Directory?
  {
    if d.publicStorage.Symlink? || d.publicStorage.Directory? then Ready else NeedsFix
  }

  /** After the check the status is READY exactly when a link was there
      already or the new one was created; a link the fixer itself made
      points to `storage/app/public` inside `public/`. */
  lemma StatusAfterCheck(d: Disk, cwd: string, linked: bool)
    ensures FinalStatus(CheckStorageLink(d, cwd, linked)) == Ready <==> d.publicStorage.Symlink? || linked
    ensures !d.publicStorage.Symlink? && linked ==>
      CheckStorageLink(d, cwd, linked).publicStorage == Symlink("storage/app/public")
  {
    LinkTargetAsWritten(cwd);
  }

  /** A real directory that was READY ends NEEDS FIX when the link cannot be
      created: the directory is gone and nothing replaces it. */
  lemma DirectoryLostOnFailedLink(d: Disk, cwd: string)
    requires d.publicStorage.Directory?
    ensures FinalStatus(d) == Ready
    ensures FinalStatus(CheckStorageLink(d, cwd, false)) == NeedsFix
  {
  }

  /** A second run changes nothing once the link exists. */
  lemma CheckIdempotentOnLink(d: Disk, cwd: string, linked: bool, linkedAgain: bool)
    requires CheckStorageLink(d, cwd, linked).publicStorage.Symlink?
    ensures CheckStorageLink(CheckStorageLink(d, cwd, linked), cwd, linkedAgain)
      == CheckStorageLink(d, cwd, linked)
  {
  }

  // -------------------------------------------------------- sample listing

  datatype Sample = Sample(name: string, url: string)

  /** What `validateImages` reports: nothing when `products/` is missing,
      otherwise the file count, the first five files with their URLs, and
      the number of files left unlisted when there are more than five. */
  datatype Listing =
    | NoProductImages
    | Found(count: nat, samples: seq<Sample>, more: Option<nat>)

  const SampleLimit := 5

  function SampleUrl(file: string, storagePath: string): string {
    "/storage/" + RemoveAll(file, storagePath)
  }

  function SampleOf(file: string, storagePath: string): Sample {
    Sample(Basename(file), SampleUrl(file, storagePath))
  }

  /** `validateImages`; `productFiles` is the directory listing of
      `storage/app/public/products`, None when it is no directory. */
  method ValidateImages(storagePath: string, productFiles: Option<seq<string>>)
    returns (listing: Listing)
    ensures listing.NoProductImages? <==> productFiles.None?
    ensures productFiles.Some? ==>
      var files := productFiles.value;
      && listing.count == |files|
      && |listing.samples| == (if |files| < SampleLimit then |files| else SampleLimit)
      && (forall k | 0 <= k < |listing.samples| :: listing.samples[k] == SampleOf(files[k], storagePath))
      && (listing.more.Some? <==> |files| > SampleLimit)
      && (listing.more.Some? ==> listing.more.value == |files| - SampleLimit)
  {
    if productFiles.None? {
      return NoProductImages;
    }
    var files := productFiles.value;
    var samples: seq<Sample> := [];
    var more: Option<nat> := None;
    if |files| > 0 {
      var n := if |files| < SampleLimit then |files| else SampleLimit;
      var i := 0;
      while i < n
        invariant 0 <= i <= n
        invariant |samples| == i
        invariant forall k | 0 <= k < i :: samples[k] == SampleOf(files[k], storagePath)
      {
        samples := samples + [SampleOf(files[i], storagePath)];
        i := i + 1;
      }
      if |files| > SampleLimit {
        more := Some(|files| - SampleLimit);
      }
    }
    listing := Found(|files|, samples, more);
  }

  /** A product image listed by `glob` under the storage path is served
      under `/storage//products/...`: the storage path is cut out but the
      slash after it stays, next to the one the script adds. */
  lemma SampleOfProductImage(storagePath: string, name: string)
    requires |storagePath| > 0 && |name| > 0 && '/' !in name
    requires !Contains("/products/" + name, storagePath)
    ensures SampleOf(storagePath + "/products/" + name, storagePath)
      == Sample(name, "/storage//products/" + name)
  {
    ProductImageUrl(storagePath, name);
    assert storagePath + "/products/" + name == (storagePath + "/products") + "/" + name;
    BasenameOfPath(storagePath + "/products", name);
  }

  lemma ProductImageUrl(storagePath: string, name: string)
    requires |storagePath| > 0
    requires !Contains("/products/" + name, storagePath)
    ensures SampleUrl(storagePath + "/products/" + name, storagePath) == "/storage//products/" + name
  {
    var rest := "/products/" + name;
    assert storagePath + "/products/" + name == storagePath + rest;
    RemoveAllLeading(storagePath, rest);
    RemoveAllAbsent(rest, storagePath);
    assert "/storage/" + rest == "/storage//products/" + name;
  }
}
