/** Incus product names and the two documents built from projection rows (internal/materialization/incus/service.go):
    the index lists the products that the product file describes. */
module ProductNames {
  import opened Catalog
  import opened Indexer
  import opened Keys
  import opened Memo
  import Sorting
  import opened Text
  import opened Wrappers

  /** Incus has its own names for two architectures. */
  function IncusArchitecture(architecture: string): (name: string)
    ensures architecture == "x86_64" ==> name == "amd64"
    ensures architecture == "aarch64" ==> name == "arm64"
    ensures architecture !in {"x86_64", "aarch64"} ==> name == architecture
  {
    if architecture == "x86_64" then "amd64" else if architecture == "aarch64" then "arm64" else architecture
  }

  /** The parts of a product name, each in the form it takes there. */
  datatype Coordinates = Coordinates(image: string, version: string, architecture: string, variant: string)

  function CoordinatesOf(row: Row): Coordinates {
    Coordinates(row.imageName, row.version, IncusArchitecture(row.architecture), NormalizeArtifactVariant(row.variant))
  }

  function Join(c: Coordinates): string {
    c.image + ":" + c.version + ":" + c.architecture + ":" + c.variant
  }

  function ProductName(row: Row): string {
    Join(CoordinatesOf(row))
  }

  /** What the catalog guarantees of a stored row; the variant may be unset. */
  predicate ValidRow(row: Row) {
    && ValidImageName(row.imageName)
    && ValidVersion(row.version)
    && ValidToken(row.architecture)
    && (row.variant == "" || ValidToken(row.variant))
  }

  // ---------------------------------------------------------------- unique decodability

  function FirstColon(s: string): Option<(string, string)> {
    if s == "" then None
    else if s[0] == ':' then Some(("", s[1..]))
    else
      var r := FirstColon(s[1..]);
      if r == None then None else Some(([s[0]] + r.value.0, r.value.1))
  }

  function LastColon(s: string): Option<(string, string)> {
    if s == "" then None
    else if s[|s| - 1] == ':' then Some((s[..|s| - 1], ""))
    else
      var r := LastColon(s[..|s| - 1]);
      if r == None then None else Some((r.value.0, r.value.1 + [s[|s| - 1]]))
  }

  /** Reads a product name from both ends: the version is whatever is left in the middle. */
  function Decode(name: string): Option<Coordinates> {
    var front := FirstColon(name);
    if front == None then None
    else
      var back := LastColon(front.value.1);
      if back == None then None
      else
        var middle := LastColon(back.value.0);
        if middle == None then None
        else Some(Coordinates(front.value.0, middle.value.0, middle.value.1, back.value.1))
  }

  lemma {:induction false} FirstColonCuts(a: string, b: string)
    requires ':' !in a
    ensures FirstColon(a + ":" + b) == Some((a, b))
  {
    var s := a + ":" + b;
    if a == "" {
      assert s[1..] == b;
    } else {
      assert s[1..] == a[1..] + ":" + b;
      FirstColonCuts(a[1..], b);
      assert [a[0]] + a[1..] == a;
    }
  }

  lemma {:induction false} LastColonCuts(a: string, b: string)
    requires ':' !in b
    ensures LastColon(a + ":" + b) == Some((a, b))
  {
    var s := a + ":" + b;
    if b == "" {
      assert s[..|s| - 1] == a;
    } else {
      var n := |b| - 1;
      assert s[..|s| - 1] == a + ":" + b[..n];
      LastColonCuts(a, b[..n]);
      assert b[..n] + [b[n]] == b;
    }
  }

  predicate ColonFree(c: Coordinates) {
    ':' !in c.image && ':' !in c.architecture && ':' !in c.variant
  }

  /** A product name gives back its coordinates although the version may contain colons. */
  lemma NameDecodes(c: Coordinates)
    requires ColonFree(c)
    ensures Decode(Join(c)) == Some(c)
  {
    var rest := c.version + ":" + c.architecture + ":" + c.variant;
    assert Join(c) == c.image + ":" + rest;
    FirstColonCuts(c.image, rest);
    assert rest == (c.version + ":" + c.architecture) + ":" + c.variant;
    LastColonCuts(c.version + ":" + c.architecture, c.variant);
    LastColonCuts(c.version, c.architecture);
  }

  lemma RowsAreColonFree(row: Row)
    requires ValidRow(row)
    ensures ColonFree(CoordinatesOf(row))
  {
  }

  /** Two stored rows share a product name exactly when image and version coincide, the architectures coincide or go by
      the same name in Incus, and so do the variants, an unset one being the default. */
  lemma NamesAreUnique(a: Row, b: Row)
    requires ValidRow(a) && ValidRow(b)
    ensures ProductName(a) == ProductName(b) <==> CoordinatesOf(a) == CoordinatesOf(b)
    ensures ProductName(a) == ProductName(b) <==>
      && a.imageName == b.imageName && a.version == b.version
      && (a.architecture == b.architecture
          || {a.architecture, b.architecture} == {"x86_64", "amd64"} || {a.architecture, b.architecture} == {"aarch64", "arm64"})
      && (a.variant == b.variant || {a.variant, b.variant} == {"", "default"})
  {
    RowsAreColonFree(a);
    RowsAreColonFree(b);
    NameDecodes(CoordinatesOf(a));
    NameDecodes(CoordinatesOf(b));
  }

  /** An image name with a colon would break this, which is why the grammar of image names matters. */
  lemma ColonsInImagesCollide()
    ensures exists c: Coordinates, d: Coordinates :: c != d && Join(c) == Join(d)
  {
    var c, d := Coordinates("a:b", "1", "amd64", "default"), Coordinates("a", "b:1", "amd64", "default");
    assert Join(c) == "a:b:1:amd64:default" && Join(d) == "a:b:1:amd64:default";
  }

  // ---------------------------------------------------------------- text order

  predicate Leq(a: string, b: string) {
    a == "" || (b != "" && (a[0] < b[0] || (a[0] == b[0] && Leq(a[1..], b[1..]))))
  }

  lemma {:induction false} LeqTotal(a: string, b: string)
    ensures Leq(a, b) || Leq(b, a)
    ensures Leq(a, b) && Leq(b, a) ==> a == b
  {
    if a != "" && b != "" && a[0] == b[0] {
      LeqTotal(a[1..], b[1..]);
      assert a == [a[0]] + a[1..] && b == [b[0]] + b[1..];
    }
  }

  lemma {:induction false} LeqTransitive(a: string, b: string, c: string)
    requires Leq(a, b) && Leq(b, c)
    ensures Leq(a, c)
  {
    if a != "" && a[0] == b[0] && b[0] == c[0] {
      LeqTransitive(a[1..], b[1..], c[1..]);
    }
  }

  /** Text order is decided by the first position where two texts differ; a text comes before its continuations. */
  lemma {:induction false} FirstDifferenceDecides(a: string, b: string, k: nat)
    requires k <= |a| && k <= |b| && a[..k] == b[..k]
    requires k < |a| && k < |b| ==> a[k] != b[k]
    ensures Leq(a, b) <==> k == |a| || (k < |b| && a[k] < b[k])
  {
    if k > 0 {
      assert a[0] == a[..k][0] && b[0] == b[..k][0];
      assert a[1..][..k - 1] == a[..k][1..] && b[1..][..k - 1] == b[..k][1..];
      FirstDifferenceDecides(a[1..], b[1..], k - 1);
    }
  }

  predicate Sorted(s: seq<string>) {
    forall i, j | 0 <= i < j < |s| :: Leq(s[i], s[j])
  }

  predicate Distinct(s: seq<string>) {
    forall i, j | 0 <= i < j < |s| :: s[i] != s[j]
  }

  const BY_TEXT: (string, string) -> bool := (a, b) => Leq(a, b)

  lemma TextIsOrdered(s: seq<string>)
    ensures Sorting.Orders(BY_TEXT, s)
    ensures Sorting.Sorted(BY_TEXT, s) <==> Sorted(s)
  {
    forall a, b | a in s && b in s ensures BY_TEXT(a, b) || BY_TEXT(b, a) {
      LeqTotal(a, b);
    }
    forall a, b, c | a in s && b in s && c in s && BY_TEXT(a, b) && BY_TEXT(b, c) ensures BY_TEXT(a, c) {
      LeqTransitive(a, b, c);
    }
  }

  lemma PermutationKeepsDistinctness(s: seq<string>, t: seq<string>)
    requires multiset(s) == multiset(t) && Distinct(s)
    ensures Distinct(t) && |t| == |s| && forall x :: x in t <==> x in s
  {
    Sorting.PermutationMembers(s, t);
    forall i, j | 0 <= i < j < |t| ensures t[i] != t[j] {
      if t[i] == t[j] {
        CountTwice(t, i, j);
        DistinctOnce(s, t[i]);
      }
    }
  }

  lemma CountTwice(t: seq<string>, i: nat, j: nat)
    requires i < j < |t| && t[i] == t[j]
    ensures multiset(t)[t[i]] >= 2
  {
    assert t == t[..j] + [t[j]] + t[j + 1..];
    assert t[i] in t[..j];
    assert t[i] in multiset(t[..j]);
  }

  lemma {:induction false} DistinctOnce(s: seq<string>, x: string)
    requires Distinct(s)
    ensures multiset(s)[x] <= 1
  {
    if s != [] {
      DistinctOnce(s[1..], x);
      assert s == [s[0]] + s[1..];
      if s[0] == x {
        assert x !in s[1..];
      }
    }
  }

  /** `sort.Strings`. */
  method SortStrings(s: seq<string>) returns (t: seq<string>)
    ensures Sorted(t) && multiset(t) == multiset(s)
  {
    t := Sorting.SortFunc(BY_TEXT, s);
    TextIsOrdered(s);
    TextIsOrdered(t);
  }

  lemma HeadIsIn(s: seq<string>)
    ensures s != [] ==> s[0] in s
  {
  }

  /** A sorted list without repetition is determined by its elements. */
  lemma {:induction false} SortedListIsItsSet(s: seq<string>, t: seq<string>)
    requires Sorted(s) && Sorted(t) && Distinct(s) && Distinct(t)
    requires forall x :: x in s <==> x in t
    ensures s == t
  {
    HeadIsIn(s);
    HeadIsIn(t);
    if s != [] {
      var i :| 0 <= i < |s| && s[i] == t[0];
      var j :| 0 <= j < |t| && t[j] == s[0];
      LeqTotal(s[0], t[0]);
      assert s[0] == t[0];
      forall x ensures x in s[1..] <==> x in t[1..] {
        assert x in s <==> x == s[0] || x in s[1..];
        assert x in t <==> x == t[0] || x in t[1..];
      }
      SortedListIsItsSet(s[1..], t[1..]);
      assert s == [s[0]] + s[1..] && t == [t[0]] + t[1..];
    }
  }

  // ---------------------------------------------------------------- the index

  function Names(rows: seq<Row>): (names: seq<string>)
    ensures |names| == |rows|
  {
    seq(|rows|, i requires 0 <= i < |rows| => ProductName(rows[i]))
  }

  predicate DistinctCoordinates(rows: seq<Row>) {
    forall i, j | 0 <= i < j < |rows| :: CoordinatesOf(rows[i]) != CoordinatesOf(rows[j])
  }

  /** Names clash exactly when coordinates coincide, so a duplicate is reported only for a real one. */
  lemma DuplicatesAreCoordinates(rows: seq<Row>)
    requires forall row <- rows :: ValidRow(row)
    ensures Distinct(Names(rows)) <==> DistinctCoordinates(rows)
  {
    forall i, j | 0 <= i < j < |rows| ensures Names(rows)[i] == Names(rows)[j] <==> CoordinatesOf(rows[i]) == CoordinatesOf(rows[j]) {
      NamesAreUnique(rows[i], rows[j]);
    }
  }

  datatype DocumentError = Duplicate(name: string) | AliasesUnavailable(image: string) | InvalidPath(path: string)

  /** The index of the rows: their names, sorted, each once. */
  ghost predicate IsIndex(rows: seq<Row>, names: seq<string>) {
    && |names| == |rows|
    && Sorted(names)
    && Distinct(names)
    && forall x :: x in names <==> x in Names(rows)
  }

  lemma OneMoreName(rows: seq<Row>, i: nat)
    requires i < |rows|
    ensures Names(rows[..i + 1]) == Names(rows[..i]) + [ProductName(rows[i])]
    ensures Distinct(Names(rows[..i])) ==>
      (Distinct(Names(rows[..i + 1])) <==> ProductName(rows[i]) !in Names(rows[..i]))
  {
    var before, after := Names(rows[..i]), Names(rows[..i + 1]);
    assert after == before + [ProductName(rows[i])];
    if ProductName(rows[i]) in before {
      var k :| 0 <= k < |before| && before[k] == ProductName(rows[i]);
      assert after[k] == after[i];
    }
  }

  lemma EarlyDuplicate(rows: seq<Row>, i: nat)
    requires i <= |rows| && !Distinct(Names(rows[..i]))
    ensures !Distinct(Names(rows))
  {
    var early := Names(rows[..i]);
    var k, m :| 0 <= k < m < |early| && early[k] == early[m];
    assert Names(rows)[k] == Names(rows)[m];
  }

  ghost predicate NamedTwice(rows: seq<Row>, name: string) {
    exists i, j | 0 <= i < j < |rows| :: Names(rows)[i] == name && Names(rows)[j] == name
  }

  lemma SeenTwice(rows: seq<Row>, i: nat)
    requires i < |rows| && ProductName(rows[i]) in Names(rows[..i])
    ensures NamedTwice(rows, ProductName(rows[i]))
  {
    var k :| 0 <= k < i && Names(rows[..i])[k] == ProductName(rows[i]);
    assert Names(rows)[k] == Names(rows)[i];
  }

  /** `projectedProductNames`. */
  method ProjectedProductNames(rows: seq<Row>) returns (r: Result<seq<string>, DocumentError>)
    ensures r.Ok? <==> Distinct(Names(rows))
    ensures r.Ok? ==> IsIndex(rows, r.value)
    ensures r.Err? ==> r.error.Duplicate? && NamedTwice(rows, r.error.name)
  {
    var names: seq<string> := [];
    var seen: set<string> := {};
    for i := 0 to |rows|
      invariant names == Names(rows[..i]) && Distinct(names)
      invariant forall x :: x in seen <==> x in names
    {
      var name := ProductName(rows[i]);
      OneMoreName(rows, i);
      if name in seen {
        EarlyDuplicate(rows, i + 1);
        SeenTwice(rows, i);
        return Err(Duplicate(name));
      }
      seen := seen + {name};
      names := names + [name];
    }
    assert rows[..|rows|] == rows;
    var sorted := SortStrings(names);
    PermutationKeepsDistinctness(names, sorted);
    return Ok(sorted);
  }

  // ---------------------------------------------------------------- the product file

  datatype Alias = Alias(alias: string, version: string)

  datatype Item = Item(path: string, size: int, sha256: string)

  datatype Product = Product(
    aliases: seq<string>, architecture: string, operatingSystem: string, release: string, variant: string,
    metadata: Item, combinedSha256: string, disk: Item)

  /** The other names of a product: those of the aliases that point at its version. */
  ghost predicate AliasName(image: string, version: string, aliases: seq<Alias>, x: string) {
    exists a <- aliases :: a.version == version && x == image + "/" + a.alias
  }

  lemma OneMoreAlias(image: string, version: string, aliases: seq<Alias>, i: nat)
    requires i < |aliases|
    ensures forall x :: AliasName(image, version, aliases[..i + 1], x) <==>
      AliasName(image, version, aliases[..i], x) || (aliases[i].version == version && x == image + "/" + aliases[i].alias)
  {
    var before, after := aliases[..i], aliases[..i + 1];
    assert after == before + [aliases[i]];
    forall x | AliasName(image, version, before, x) ensures AliasName(image, version, after, x) {
      var a :| a in before && a.version == version && x == image + "/" + a.alias;
      assert a in after;
    }
    assert aliases[i] in after;
  }

  /** The alias list of a product: the exact version first, then the rest in order, nothing twice. */
  ghost predicate IsAliasList(image: string, version: string, aliases: seq<Alias>, values: seq<string>) {
    && values != []
    && values[0] == image + "/" + version
    && Sorted(values[1..])
    && Distinct(values)
    && forall x :: x in values <==> x == values[0] || AliasName(image, version, aliases, x)
  }

  /** `productAliases`, before the values are joined with commas. */
  method ProductAliases(image: string, version: string, aliases: seq<Alias>) returns (values: seq<string>)
    ensures IsAliasList(image, version, aliases, values)
  {
    var first := image + "/" + version;
    values := [first];
    for i := 0 to |aliases|
      invariant values != [] && values[0] == first && Distinct(values)
      invariant forall x :: x in values <==> x == first || AliasName(image, version, aliases[..i], x)
    {
      OneMoreAlias(image, version, aliases, i);
      if aliases[i].version == version {
        var value := image + "/" + aliases[i].alias;
        if value !in values {
          values := values + [value];
        }
      }
    }
    assert aliases[..|aliases|] == aliases;
    ghost var unsorted := values;
    var rest := SortStrings(values[1..]);
    assert Distinct(values[1..]);
    PermutationKeepsDistinctness(values[1..], rest);
    values := [first] + rest;
    assert values[1..] == rest;
    SameElements(unsorted, values);
  }

  lemma SameElements(s: seq<string>, t: seq<string>)
    requires s != [] && t != [] && s[0] == t[0] && Distinct(s) && Distinct(t[1..])
    requires forall x :: x in t[1..] <==> x in s[1..]
    ensures Distinct(t) && forall x :: x in t <==> x in s
  {
    forall x ensures x in t <==> x in s {
      assert x in s <==> x == s[0] || x in s[1..];
      assert x in t <==> x == t[0] || x in t[1..];
    }
    assert s[0] !in s[1..];
    forall i, j | 0 <= i < j < |t| ensures t[i] != t[j] {
      assert t[j] in t[1..];
      if i > 0 {
        assert t[1..][i - 1] != t[1..][j - 1];
      }
    }
  }

  /** The product that a row becomes. */
  ghost predicate IsProductOf(row: Row, aliases: seq<Alias>, p: Product) {
    && IsAliasList(row.imageName, row.version, aliases, p.aliases)
    && p == Product(
         p.aliases, IncusArchitecture(row.architecture), row.operatingSystem, row.version,
         NormalizeArtifactVariant(row.variant),
         Item(row.metadataPath, row.metadataSize, row.metadataSha256), row.combinedSha256,
         Item(row.diskPath, row.diskSize, row.diskSha256))
  }

  ghost predicate Describes(row: Row, aliasesOf: string -> Option<seq<Alias>>, file: map<string, Product>) {
    && ProductName(row) in file
    && aliasesOf(row.imageName).Some?
    && IsProductOf(row, aliasesOf(row.imageName).value, file[ProductName(row)])
  }

  /** The product file of the rows: one product for every name, made from the row of that name. */
  ghost predicate IsProductFile(rows: seq<Row>, aliasesOf: string -> Option<seq<Alias>>, file: map<string, Product>) {
    && (forall x :: x in file <==> x in Names(rows))
    && forall i: nat {:trigger Describes(rows[i], aliasesOf, file)} | i < |rows| :: Describes(rows[i], aliasesOf, file)
  }

  /** `projectRow`; `parses` is the path grammar of the document library. */
  method ProjectRow(row: Row, aliases: seq<Alias>, parses: string -> bool) returns (r: Result<Product, DocumentError>)
    ensures r.Ok? <==> parses(row.metadataPath) && parses(row.diskPath)
    ensures r.Ok? ==> IsProductOf(row, aliases, r.value)
    ensures r.Err? ==> r.error == InvalidPath(if parses(row.metadataPath) then row.diskPath else row.metadataPath)
  {
    var values := ProductAliases(row.imageName, row.version, aliases);
    if !parses(row.metadataPath) {
      return Err(InvalidPath(row.metadataPath));
    }
    if !parses(row.diskPath) {
      return Err(InvalidPath(row.diskPath));
    }
    return Ok(Product(
      values, IncusArchitecture(row.architecture), row.operatingSystem, row.version,
      NormalizeArtifactVariant(row.variant),
      Item(row.metadataPath, row.metadataSize, row.metadataSha256), row.combinedSha256,
      Item(row.diskPath, row.diskSize, row.diskSha256)));
  }

  /** A row that can be described on its own. */
  predicate Describable(row: Row, aliasesOf: string -> Option<seq<Alias>>, parses: string -> bool) {
    aliasesOf(row.imageName).Some? && parses(row.metadataPath) && parses(row.diskPath)
  }

  /** An error names its cause. */
  ghost predicate CausedBy(rows: seq<Row>, aliasesOf: string -> Option<seq<Alias>>, parses: string -> bool, e: DocumentError) {
    match e
    case Duplicate(name) => NamedTwice(rows, name)
    case AliasesUnavailable(image) => aliasesOf(image) == None && exists row <- rows :: row.imageName == image
    case InvalidPath(path) => !parses(path) && exists row <- rows :: row.metadataPath == path || row.diskPath == path
  }

  /** The alias catalog, which may fail for an image; it logs every image it is asked for. */
  class AliasCatalog {
    const aliasesOf: string -> Option<seq<Alias>>
    ghost var lookups: seq<string>

    constructor (aliases: string -> Option<seq<Alias>>)
      ensures aliasesOf == aliases && lookups == []
    {
      aliasesOf, lookups := aliases, [];
    }

    method ListAliases(image: string) returns (r: Option<seq<Alias>>)
      modifies this
      ensures r == aliasesOf(image) && lookups == old(lookups) + [image]
    {
      lookups := lookups + [image];
      r := aliasesOf(image);
    }
  }

  function Images(rows: seq<Row>): seq<string> {
    seq(|rows|, i requires 0 <= i < |rows| => rows[i].imageName)
  }

  ghost predicate CacheOk(aliasesOf: string -> Option<seq<Alias>>, cache: map<string, seq<Alias>>) {
    forall image <- cache :: aliasesOf(image) == Some(cache[image])
  }

  /** Exactly the images of the list are cached, and each was looked up once, where it first occurs. */
  ghost predicate LookedUpOnce(images: seq<string>, cached: set<string>, was: seq<string>, now: seq<string>) {
    cached == Members(images) && now == was + Firsts(images)
  }

  lemma OneMoreImage(rows: seq<Row>, i: nat)
    requires i < |rows|
    ensures Images(rows[..i + 1]) == Images(rows[..i]) + [rows[i].imageName]
  {
  }

  lemma LookupsStop(rows: seq<Row>, i: nat, was: seq<string>, now: seq<string>)
    requires i <= |rows| && now == was + Firsts(Images(rows[..i]))
    ensures was <= now <= was + Firsts(Images(rows))
  {
    assert Images(rows[..i]) <= Images(rows);
    FirstsOfPrefix(Images(rows[..i]), Images(rows));
  }

  /** The aliases of an image, through the cache of one document. */
  method CachedAliases(catalog: AliasCatalog, cache: map<string, seq<Alias>>, image: string,
                       ghost images: seq<string>, ghost was: seq<string>)
      returns (r: Option<seq<Alias>>, cached: map<string, seq<Alias>>)
    requires CacheOk(catalog.aliasesOf, cache) && LookedUpOnce(images, cache.Keys, was, catalog.lookups)
    modifies catalog
    ensures r == catalog.aliasesOf(image) && CacheOk(catalog.aliasesOf, cached)
    ensures catalog.lookups == was + Firsts(images + [image])
    ensures r.Some? ==> LookedUpOnce(images + [image], cached.Keys, was, catalog.lookups)
  {
    FirstsOneMore(images, image);
    OneMoreMember(images, image);
    if image in cache {
      return Some(cache[image]), cache;
    }
    r := catalog.ListAliases(image);
    cached := if r == None then cache else cache[image := r.value];
    assert r.Some? ==> cached.Keys == cache.Keys + {image};
  }

  /** All rows have their own name and can be described. */
  ghost predicate Projectable(rows: seq<Row>, aliasesOf: string -> Option<seq<Alias>>, parses: string -> bool) {
    Distinct(Names(rows)) && forall row <- rows :: Describable(row, aliasesOf, parses)
  }

  lemma OneMoreProjectable(rows: seq<Row>, i: nat, aliasesOf: string -> Option<seq<Alias>>, parses: string -> bool)
    requires i < |rows| && Projectable(rows[..i], aliasesOf, parses)
    requires ProductName(rows[i]) !in Names(rows[..i]) && Describable(rows[i], aliasesOf, parses)
    ensures Projectable(rows[..i + 1], aliasesOf, parses)
  {
    OneMoreName(rows, i);
    assert rows[..i + 1] == rows[..i] + [rows[i]];
  }

  /** The product of the next row joins the file. */
  method AddProduct(rows: seq<Row>, i: nat, catalog: AliasCatalog, parses: string -> bool,
                    file: map<string, Product>, cache: map<string, seq<Alias>>, ghost was: seq<string>)
      returns (r: Result<map<string, Product>, DocumentError>, cached: map<string, seq<Alias>>)
    requires i < |rows| && Projectable(rows[..i], catalog.aliasesOf, parses)
    requires IsProductFile(rows[..i], catalog.aliasesOf, file) && CacheOk(catalog.aliasesOf, cache)
    requires LookedUpOnce(Images(rows[..i]), cache.Keys, was, catalog.lookups)
    modifies catalog
    ensures r.Ok? ==>
      && Projectable(rows[..i + 1], catalog.aliasesOf, parses)
      && IsProductFile(rows[..i + 1], catalog.aliasesOf, r.value) && CacheOk(catalog.aliasesOf, cached)
      && LookedUpOnce(Images(rows[..i + 1]), cached.Keys, was, catalog.lookups)
    ensures r.Err? ==> CausedBy(rows, catalog.aliasesOf, parses, r.error) && !Projectable(rows, catalog.aliasesOf, parses)
    ensures was <= catalog.lookups <= was + Firsts(Images(rows))
  {
    var row := rows[i];
    var name := ProductName(row);
    assert row in rows;
    cached := cache;
    if name in file {
      OneMoreName(rows, i);
      EarlyDuplicate(rows, i + 1);
      SeenTwice(rows, i);
      LookupsStop(rows, i, was, catalog.lookups);
      return Err(Duplicate(name)), cached;
    }
    var aliases;
    OneMoreImage(rows, i);
    aliases, cached := CachedAliases(catalog, cache, row.imageName, Images(rows[..i]), was);
    LookupsStop(rows, i + 1, was, catalog.lookups);
    if aliases == None {
      return Err(AliasesUnavailable(row.imageName)), cached;
    }
    var product := ProjectRow(row, aliases.value, parses);
    if product.Err? {
      return Err(product.error), cached;
    }
    OneMoreProjectable(rows, i, catalog.aliasesOf, parses);
    FileExtends(rows, i, catalog.aliasesOf, file, product.value);
    r := Ok(file[name := product.value]);
  }

  /** `BuildProductFile`; `parses` is the path grammar. Each image is looked up once, where it first occurs, up to the
      first error. */
  method BuildProductFile(rows: seq<Row>, catalog: AliasCatalog, parses: string -> bool)
      returns (r: Result<map<string, Product>, DocumentError>)
    modifies catalog
    ensures r.Ok? <==> Projectable(rows, catalog.aliasesOf, parses)
    ensures r.Ok? ==> IsProductFile(rows, catalog.aliasesOf, r.value)
    ensures r.Err? ==> CausedBy(rows, catalog.aliasesOf, parses, r.error)
    ensures old(catalog.lookups) <= catalog.lookups <= old(catalog.lookups) + Firsts(Images(rows))
    ensures r.Ok? ==> catalog.lookups == old(catalog.lookups) + Firsts(Images(rows))
  {
    r := Ok(map[]);
    var cache: map<string, seq<Alias>> := map[];
    for i := 0 to |rows|
      invariant r.Ok? && Projectable(rows[..i], catalog.aliasesOf, parses)
      invariant IsProductFile(rows[..i], catalog.aliasesOf, r.value) && CacheOk(catalog.aliasesOf, cache)
      invariant LookedUpOnce(Images(rows[..i]), cache.Keys, old(catalog.lookups), catalog.lookups)
    {
      r, cache := AddProduct(rows, i, catalog, parses, r.value, cache, old(catalog.lookups));
      if r.Err? {
        return;
      }
    }
    assert rows[..|rows|] == rows;
  }

  lemma FileExtends(rows: seq<Row>, i: nat, aliasesOf: string -> Option<seq<Alias>>, file: map<string, Product>, product: Product)
    requires i < |rows| && IsProductFile(rows[..i], aliasesOf, file) && ProductName(rows[i]) !in file
    requires aliasesOf(rows[i].imageName).Some? && IsProductOf(rows[i], aliasesOf(rows[i].imageName).value, product)
    ensures IsProductFile(rows[..i + 1], aliasesOf, file[ProductName(rows[i]) := product])
  {
    OneMoreName(rows, i);
    var name, longer := ProductName(rows[i]), file[ProductName(rows[i]) := product];
    var some := rows[..i + 1];
    forall k: nat | k < |some| ensures Describes(some[k], aliasesOf, longer) {
      if k < i {
        assert Describes(rows[..i][k], aliasesOf, file);
        assert ProductName(rows[k]) in file && ProductName(rows[k]) != name;
      } else {
        assert longer[name] == product;
      }
    }
  }

  /** Whenever both documents can be built from the same rows, the index lists exactly the products of the file, each
      once, and it is the only sorted list that does. */
  lemma IndexListsTheProductFile(rows: seq<Row>, aliasesOf: string -> Option<seq<Alias>>,
                                 names: seq<string>, file: map<string, Product>)
    requires IsIndex(rows, names) && IsProductFile(rows, aliasesOf, file)
    ensures (set x | x in names) == file.Keys
    ensures forall other: seq<string> {:trigger Sorted(other)} ::
      Sorted(other) && Distinct(other) && (set x | x in other) == file.Keys ==> other == names
  {
    assert forall x :: x in (set x | x in names) <==> x in file.Keys;
    forall other: seq<string> | Sorted(other) && Distinct(other) && (set x | x in other) == file.Keys ensures other == names {
      forall x ensures x in other <==> x in names {
        assert x in (set x | x in other) <==> x in other;
      }
      SortedListIsItsSet(other, names);
    }
  }
}
