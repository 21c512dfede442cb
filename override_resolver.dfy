/** The `override-resolver` Rollup plugin: an import that resolves to a file
    under the core directory is redirected to the file with the same relative
    path under the override directory, when such a file exists. Paths are
    absolute and already normalised, so `path.relative` under a directory is
    the removal of the directory's prefix and `path.join` is concatenation
    with a separator. */
module OverrideResolver {
  import opened Wrappers
  import opened Strings

  /** The override and core directories, as absolute paths without a
      trailing slash. */
  datatype Dirs = Dirs(overrideDir: string, coreDir: string)

  /** A directory's prefix is its path followed by `/`. */
  function Prefix(dir: string): (r: string)
    ensures |r| == |dir| + 1 && StartsWith(r, dir) && r[|dir|] == '/'
  {
    dir + "/"
  }

  /** `path.relative(dir, p)` for a path `p` inside `dir`. */
  function RelativeTo(dir: string, p: string): string
    requires StartsWith(p, Prefix(dir))
  {
    p[|dir| + 1..]
  }

  /** `path.join(dir, rel)`. */
  function Join(dir: string, rel: string): string
  {
    Prefix(dir) + rel
  }

  /** Joining and taking the relative path are inverse to each other. */
  lemma JoinRelativeTo(dir: string, rel: string, p: string)
    ensures StartsWith(Join(dir, rel), Prefix(dir))
    ensures RelativeTo(dir, Join(dir, rel)) == rel
    ensures StartsWith(p, Prefix(dir)) ==> Join(dir, RelativeTo(dir, p)) == p
  {
    assert Join(dir, rel)[..|Prefix(dir)|] == Prefix(dir);
    if StartsWith(p, Prefix(dir)) {
      assert p == p[..|Prefix(dir)|] + p[|Prefix(dir)|..];
    }
  }

  /** An entry that the glob over the override directory reports. */
  datatype GlobEntry = GlobEntry(fullPath: string, isFile: bool)

  /** `generateOverrideLookup`: the regular files among the glob's entries, as
      paths relative to the override directory. The glob pattern is rooted in
      the override directory, so every entry lies inside it. */
  function OverrideLookup(entries: seq<GlobEntry>, overrideDir: string): (r: set<string>)
    requires forall e <- entries :: StartsWith(e.fullPath, Prefix(overrideDir))
    ensures forall rel :: rel in r <==> exists e <- entries :: e.isFile && e.fullPath == Join(overrideDir, rel)
  {
    var r := set e <- entries | e.isFile :: RelativeTo(overrideDir, e.fullPath);
    forall rel ensures rel in r <==> exists e <- entries :: e.isFile && e.fullPath == Join(overrideDir, rel) {
      if rel in r {
        var e :| e in entries && e.isFile && RelativeTo(overrideDir, e.fullPath) == rel;
        JoinRelativeTo(overrideDir, rel, e.fullPath);
      }
      if exists e <- entries :: e.isFile && e.fullPath == Join(overrideDir, rel) {
        var e :| e in entries && e.isFile && e.fullPath == Join(overrideDir, rel);
        JoinRelativeTo(overrideDir, rel, e.fullPath);
        assert RelativeTo(overrideDir, e.fullPath) in r;
      }
    }
    r
  }

  /** What `this.resolve` returned: the resolved id, whether it is external,
      and the other fields of the resolution, which the plugin never reads. */
  datatype ResolvedId = ResolvedId(id: string, external: bool, otherFields: map<string, string>)

  /** All the guards of the handler let the resolution through to the
      redirection test. */
  predicate UnderCore(resolution: Option<ResolvedId>, importer: Option<string>, dirs: Dirs)
  {
    && resolution.Some? && !resolution.value.external
    && !(importer.Some? && StartsWith(importer.value, Prefix(dirs.overrideDir)))
    && StartsWith(resolution.value.id, Prefix(dirs.coreDir))
  }

  /** The `resolveId` handler, given the resolution that the other resolvers
      produced for the import (`None`: `null`), the importing module (`None`:
      an entry point) and the lookup built at start-up. */
  method ResolveId(resolution: Option<ResolvedId>, importer: Option<string>, dirs: Dirs, lookup: set<string>)
    returns (r: Option<ResolvedId>)
    ensures resolution.None? || resolution.value.external ==> r == resolution
    ensures importer.Some? && StartsWith(importer.value, Prefix(dirs.overrideDir)) ==> r == resolution
    ensures resolution.Some? && !StartsWith(resolution.value.id, Prefix(dirs.coreDir)) ==> r == resolution
    ensures UnderCore(resolution, importer, dirs) && RelativeTo(dirs.coreDir, resolution.value.id) !in lookup
      ==> r == resolution
    // the redirection: only the id changes, to the same relative path under the override directory
    ensures UnderCore(resolution, importer, dirs) && RelativeTo(dirs.coreDir, resolution.value.id) in lookup
      ==>
      && r.Some?
      && r.value == resolution.value.(id := r.value.id)
      && StartsWith(r.value.id, Prefix(dirs.overrideDir))
      && RelativeTo(dirs.overrideDir, r.value.id) == RelativeTo(dirs.coreDir, resolution.value.id)
      && RelativeTo(dirs.overrideDir, r.value.id) in lookup
  {
    if resolution.None? || resolution.value.external {
      return resolution;
    }
    // if importer is from the override folder, then stop
    if importer.Some? && StartsWith(importer.value, Prefix(dirs.overrideDir)) {
      return resolution;
    }
    // if not importing from the core dir, then stop
    if !StartsWith(resolution.value.id, Prefix(dirs.coreDir)) {
      return resolution;
    }
    var relPath := RelativeTo(dirs.coreDir, resolution.value.id);
    if relPath !in lookup {
      return resolution;
    }
    var redirected := resolution.value.(id := Join(dirs.overrideDir, relPath));
    JoinRelativeTo(dirs.overrideDir, relPath, redirected.id);
    return Some(redirected);
  }
}
