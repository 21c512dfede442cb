/** The three pieces of logic in the application's Vite build configuration:
    the `manualChunks` classifier that assigns a module id to an output chunk,
    the `load` hook of the `virtual-modules` plugin that replaces some vtk.js
    modules by stubs, and `resolveNodeModulePath`, which walks up from a
    resolved file to the directory of an installed package. */
module ViteConfig {
  import opened Wrappers
  import opened Strings

  // ---------------------------------------------------------------------------
  // manualChunks

  /** The output chunk of module `id`; `None` stands for `undefined` (Rollup's
      default chunking). The tests are tried in a fixed priority order. */
  function ManualChunks(id: string): (r: Option<string>)
    ensures r == Some("vuetify") <==> Contains(id, "vuetify")
    ensures r == Some("vtk.js") <==> Contains(id, "vtk.js") && !Contains(id, "vuetify")
    ensures r == Some("vendor") <==>
      Contains(id, "node_modules") && !Contains(id, "vtk.js") && !Contains(id, "vuetify")
    ensures r == None <==>
      !Contains(id, "vuetify") && !Contains(id, "vtk.js") && !Contains(id, "node_modules")
    ensures r.Some? ==> r.value in {"vuetify", "vtk.js", "vendor"}
  {
    if Contains(id, "vuetify") then Some("vuetify")
    else if Contains(id, "vtk.js") then Some("vtk.js")
    else if Contains(id, "node_modules") then Some("vendor")
    else None
  }

  // ---------------------------------------------------------------------------
  // The `load` hook of the `virtual-modules` plugin

  const ColorMapsStub := "export const v = []"
  const EmptyModuleStub := "export default {}"

  /** The source text that replaces module `id`, or `None` (`null`: let the
      other plugins load the real file). Only vtk.js modules are stubbed. */
  function Load(id: string): (r: Option<string>)
    ensures !Contains(id, "@kitware/vtk.js") ==> r == None
    ensures Contains(id, "@kitware/vtk.js") && Contains(id, "ColorMaps.json.js") ==>
      r == Some(ColorMapsStub)
    ensures Contains(id, "@kitware/vtk.js") && !Contains(id, "ColorMaps.json.js")
      && (Contains(id, "CubeAxesActor") || Contains(id, "ScalarBarActor") || Contains(id, "WebGPU"))
      ==> r == Some(EmptyModuleStub)
    ensures Contains(id, "@kitware/vtk.js") && !Contains(id, "ColorMaps.json.js")
      && !Contains(id, "CubeAxesActor") && !Contains(id, "ScalarBarActor") && !Contains(id, "WebGPU")
      ==> r == None
  {
    if Contains(id, "@kitware/vtk.js") then
      if Contains(id, "ColorMaps.json.js") then Some(ColorMapsStub)
      else if Contains(id, "CubeAxesActor") || Contains(id, "ScalarBarActor") then Some(EmptyModuleStub)
      else if Contains(id, "WebGPU") then Some(EmptyModuleStub)
      else None
    else None
  }

  // ---------------------------------------------------------------------------
  // resolveNodeModulePath

  /** Every backslash of `p` replaced by a forward slash (`replace(/\\/g, '/')`). */
  function ReplaceBackslashes(p: string): (r: string)
    ensures |r| == |p|
    ensures forall i :: 0 <= i < |p| ==> r[i] == (if p[i] == '\\' then '/' else p[i])
    ensures forall i :: 0 <= i < |r| ==> r[i] != '\\'
  {
    if p == [] then []
    else [if p[0] == '\\' then '/' else p[0]] + ReplaceBackslashes(p[1..])
  }

  /** The path the upward walk starts from: Windows separators are first
      rewritten to forward slashes. */
  function StartPath(resolved: string, isWin32: bool): string
  {
    if isWin32 then ReplaceBackslashes(resolved) else resolved
  }

  predicate IsSeparator(c: char)
  {
    c == '/' || c == '\\'
  }

  /** The index of the last separator in `p`, if there is one. */
  function LastSeparator(p: string): (r: Option<nat>)
    ensures r.Some? ==> r.value < |p| && IsSeparator(p[r.value])
    ensures r.Some? ==> forall j :: r.value < j < |p| ==> !IsSeparator(p[j])
    ensures r.None? ==> forall j :: 0 <= j < |p| ==> !IsSeparator(p[j])
  {
    if p == [] then None
    else if IsSeparator(p[|p| - 1]) then Some(|p| - 1)
    else LastSeparator(p[..|p| - 1])
  }

  /** A measure that `Dirname` lowers whenever it changes its argument. */
  function Rank(p: string): nat
  {
    if p == "." then 0 else |p| + 1
  }

  /** `path.win32.dirname`, taken as "drop the last segment": a path without
      a separator has the parent ".", a root keeps its separator, and the
      parent of a root is the root itself. */
  function Dirname(p: string): (r: string)
    ensures r == p || Rank(r) < Rank(p)
  {
    match LastSeparator(p)
    case None => "."
    case Some(k) => if k == 0 then p[..1] else p[..k]
  }

  function CouldNotResolve(moduleName: string): string
  {
    "Could not resolve " + moduleName
  }

  /** The upward walk of `resolveNodeModulePath`, as a recursive definition:
      stop at the first path that ends with `moduleName`, fail once `Dirname`
      no longer changes the path. */
  function WalkUp(p: string, moduleName: string): Result<string, string>
    decreases Rank(p)
  {
    if EndsWith(p, moduleName) then Success(p)
    else if Dirname(p) == p then Failure(CouldNotResolve(moduleName))
    else WalkUp(Dirname(p), moduleName)
  }

  /** `Dirname` applied `n` times. */
  function Ancestor(p: string, n: nat): string
  {
    if n == 0 then p else Dirname(Ancestor(p, n - 1))
  }

  /** `resolveNodeModulePath(moduleName)`, where `resolved` is the file that
      `require.resolve` found for the module (that lookup is not modelled) and
      `isWin32` says whether `process.platform` is `'win32'`. A `Failure` is
      the exception thrown. */
  method ResolveNodeModulePath(resolved: string, moduleName: string, isWin32: bool)
    returns (r: Result<string, string>)
    ensures r == WalkUp(StartPath(resolved, isWin32), moduleName)
    ensures r.Success? ==> EndsWith(r.value, moduleName)
    ensures r.Failure? ==> r.error == CouldNotResolve(moduleName)
  {
    var modulePath := if isWin32 then ReplaceBackslashes(resolved) else resolved;
    while !EndsWith(modulePath, moduleName)
      invariant WalkUp(modulePath, moduleName) == WalkUp(StartPath(resolved, isWin32), moduleName)
      decreases Rank(modulePath)
    {
      var newPath := Dirname(modulePath);
      if newPath == modulePath {
        WalkUpResult(StartPath(resolved, isWin32), moduleName);
        return Failure(CouldNotResolve(moduleName));
      }
      modulePath := newPath;
    }
    WalkUpResult(StartPath(resolved, isWin32), moduleName);
    return Success(modulePath);
  }

  /** The walk either returns a path ending with the module name or fails with
      the message naming the module. */
  lemma {:induction false} WalkUpResult(p: string, moduleName: string)
    ensures WalkUp(p, moduleName).Success? ==> EndsWith(WalkUp(p, moduleName).value, moduleName)
    ensures WalkUp(p, moduleName).Failure? ==> WalkUp(p, moduleName).error == CouldNotResolve(moduleName)
    decreases Rank(p)
  {
    if !EndsWith(p, moduleName) && Dirname(p) != p {
      WalkUpResult(Dirname(p), moduleName);
    }
  }

  /** No path on the way up from `p`, before level `n`, ends with `moduleName`. */
  ghost predicate NoMatchBelow(p: string, moduleName: string, n: nat)
  {
    forall k: nat :: k < n ==> !EndsWith(Ancestor(p, k), moduleName)
  }

  /** A successful walk returns the NEAREST ancestor of the start path that
      ends with the module name; `n` is the number of levels climbed. */
  lemma {:induction false} WalkUpFindsNearest(p: string, moduleName: string) returns (n: nat)
    requires WalkUp(p, moduleName).Success?
    ensures Ancestor(p, n) == WalkUp(p, moduleName).value
    ensures NoMatchBelow(p, moduleName, n)
    decreases Rank(p)
  {
    if EndsWith(p, moduleName) {
      n := 0;
    } else {
      var q := Dirname(p);
      var m := WalkUpFindsNearest(q, moduleName);
      n := m + 1;
      AncestorShift(p, m);
      forall k: nat | k < n ensures !EndsWith(Ancestor(p, k), moduleName) {
        if k > 0 {
          AncestorShift(p, k - 1);
          assert !EndsWith(Ancestor(q, k - 1), moduleName);
        }
      }
    }
  }

  /** A failed walk climbed `n` levels to a path that is its own parent, and
      no path on the way there (that one included) ends with the module name. */
  lemma {:induction false} WalkUpFailsAtRoot(p: string, moduleName: string) returns (n: nat)
    requires WalkUp(p, moduleName).Failure?
    ensures Dirname(Ancestor(p, n)) == Ancestor(p, n)
    ensures NoMatchBelow(p, moduleName, n + 1)
    decreases Rank(p)
  {
    assert !EndsWith(p, moduleName);
    if Dirname(p) == p {
      n := 0;
      assert Ancestor(p, 0) == p;
    } else {
      var q := Dirname(p);
      assert WalkUp(q, moduleName) == WalkUp(p, moduleName);
      var m := WalkUpFailsAtRoot(q, moduleName);
      n := m + 1;
      AncestorShift(p, m);
      assert Ancestor(p, n) == Ancestor(q, m);
      forall k: nat | k < n + 1 ensures !EndsWith(Ancestor(p, k), moduleName) {
        if k > 0 {
          AncestorShift(p, k - 1);
          assert !EndsWith(Ancestor(q, k - 1), moduleName);
        }
      }
    }
  }

  /** Going up `n + 1` levels is going up one level, then `n`. */
  lemma {:induction false} AncestorShift(p: string, n: nat)
    ensures Ancestor(p, n + 1) == Ancestor(Dirname(p), n)
  {
    if n > 0 {
      AncestorShift(p, n - 1);
    }
  }
}
