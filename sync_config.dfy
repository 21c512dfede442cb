// The `syncConfig` script: it reads `tsconfig.json`, makes sure that
// `compilerOptions.paths` exists, points the `"@/*"` alias at the core
// directory and writes the file back. Reading, parsing and writing are
// parameters; what is modelled is the update of the parsed value and the
// order of the failure points.
module SyncConfig {
  import opened Wrappers

  /** A parsed JSON value. Objects are maps, so member order is not modelled. */
  datatype Json =
    | JNull
    | JBool(b: bool)
    | JNumber(n: real)
    | JString(s: string)
    | JArray(items: seq<Json>)
    | JObject(members: map<string, Json>)

  const ParseFailure := "Failed to parse tsconfig.json"
  /** The error thrown when the update reads a property of `null` or assigns
      a property of a primitive value (an ES module is strict mode code). */
  const TypeError := "TypeError"

  const EmptyObject := JObject(map[])

  /** JavaScript truthiness of a parsed value (JSON has no NaN or undefined). */
  predicate Truthy(v: Json)
  {
    match v
    case JNull => false
    case JBool(b) => b
    case JNumber(n) => n != 0.0
    case JString(s) => s != ""
    case JArray(_) => true
    case JObject(_) => true
  }

  /** A value on which setting a named property is allowed. */
  predicate IsContainer(v: Json)
  {
    v.JArray? || v.JObject?
  }

  /** The value of `o[key] ||= {}`: the member when it is truthy, else `{}`. */
  function OrEmpty(m: map<string, Json>, key: string): (r: Json)
    ensures Truthy(r)
    ensures key in m && Truthy(m[key]) ==> r == m[key]
    ensures !(key in m && Truthy(m[key])) ==> r == EmptyObject
  {
    if key in m && Truthy(m[key]) then m[key] else EmptyObject
  }

  // The value written under the `"@/*"` key: `[`./${corePath}/*`]`.
  function Alias(corePath: string): Json
  {
    JArray([JString("./" + corePath + "/*")])
  }

  /** `compilerOptions.paths` of a value, when both levels are objects. */
  predicate HasPaths(t: Json)
  {
    && t.JObject? && "compilerOptions" in t.members
    && t.members["compilerOptions"].JObject?
    && "paths" in t.members["compilerOptions"].members
    && t.members["compilerOptions"].members["paths"].JObject?
  }

  function Paths(t: Json): map<string, Json>
    requires HasPaths(t)
  {
    t.members["compilerOptions"].members["paths"].members
  }

  /** The value that the three update statements of `main` leave for
      `JSON.stringify` to write, or the TypeError they throw. A named property
      set on an array is legal but is not serialised, so an array at any of
      the three levels is written back as it was. */
  function Updated(t: Json, corePath: string): (r: Result<Json, string>)
    // the failure points: reading a property of `null`, assigning one on a primitive
    ensures r.Failure? <==>
      || !IsContainer(t)
      || (t.JObject? && !IsContainer(OrEmpty(t.members, "compilerOptions")))
      || (t.JObject? && OrEmpty(t.members, "compilerOptions").JObject? &&
          !IsContainer(OrEmpty(OrEmpty(t.members, "compilerOptions").members, "paths")))
    ensures r.Failure? ==> r.error == TypeError
    ensures t.JArray? ==> r == Success(t)
    // the happy path over objects
    ensures t.JObject? && OrEmpty(t.members, "compilerOptions").JObject?
      && OrEmpty(OrEmpty(t.members, "compilerOptions").members, "paths").JObject?
      ==> r.Success? && HasPaths(r.value) && "@/*" in Paths(r.value) && Paths(r.value)["@/*"] == Alias(corePath)
    // nothing else changes
    ensures r.Success? && t.JObject? ==>
      && r.value.JObject?
      && r.value.members.Keys == t.members.Keys + {"compilerOptions"}
      && (forall k :: k in t.members && k != "compilerOptions" ==> r.value.members[k] == t.members[k])
    ensures r.Success? && t.JObject? && OrEmpty(t.members, "compilerOptions").JObject? ==>
      var before := OrEmpty(t.members, "compilerOptions").members;
      var after := r.value.members["compilerOptions"];
      && after.JObject?
      && after.members.Keys == before.Keys + {"paths"}
      && (forall k :: k in before && k != "paths" ==> after.members[k] == before[k])
    // the `paths` object that `||= {}` leaves (the old one, or a new empty
    // one) gains the alias and nothing else
    ensures (r.Success? && t.JObject? && OrEmpty(t.members, "compilerOptions").JObject?
             && OrEmpty(OrEmpty(t.members, "compilerOptions").members, "paths").JObject?) ==>
      var before := OrEmpty(OrEmpty(t.members, "compilerOptions").members, "paths").members;
      && HasPaths(r.value)
      && Paths(r.value).Keys == before.Keys + {"@/*"}
      && (forall k :: k in before && k != "@/*" ==> Paths(r.value)[k] == before[k])
    // a truthy array at the second or third level is kept as it was
    ensures (r.Success? && t.JObject? && OrEmpty(t.members, "compilerOptions").JArray?) ==>
      r.value.JObject? && r.value.members["compilerOptions"] == t.members["compilerOptions"]
    ensures (r.Success? && t.JObject? && OrEmpty(t.members, "compilerOptions").JObject?
             && OrEmpty(OrEmpty(t.members, "compilerOptions").members, "paths").JArray?) ==>
      && r.value.JObject? && r.value.members["compilerOptions"].JObject?
      && r.value.members["compilerOptions"].members["paths"] == t.members["compilerOptions"].members["paths"]
    ensures r.Success? && HasPaths(r.value) && HasPaths(t) ==>
      && Paths(r.value).Keys == Paths(t).Keys + {"@/*"}
      && (forall k :: k in Paths(t) && k != "@/*" ==> Paths(r.value)[k] == Paths(t)[k])
  {
    match t
    case JArray(_) => Success(t)
    case JObject(m) =>
      var co := OrEmpty(m, "compilerOptions");
      (match co
       case JArray(_) => Success(JObject(m["compilerOptions" := co]))
       case JObject(cm) =>
         var paths := OrEmpty(cm, "paths");
         (match paths
          case JArray(_) => Success(JObject(m["compilerOptions" := JObject(cm["paths" := paths])]))
          case JObject(pm) =>
            Success(JObject(m["compilerOptions" := JObject(cm["paths" := JObject(pm["@/*" := Alias(corePath)])])]))
          case _ => Failure(TypeError))
       case _ => Failure(TypeError))
    case _ => Failure(TypeError)
  }

  /** Updating an already updated value changes nothing. */
  lemma UpdatedIsIdempotent(t: Json, corePath: string)
    requires Updated(t, corePath).Success?
    ensures Updated(Updated(t, corePath).value, corePath) == Updated(t, corePath)
  {
    var r := Updated(t, corePath).value;
    if t.JObject? {
      var co := OrEmpty(t.members, "compilerOptions");
      if co.JObject? {
        var paths := OrEmpty(co.members, "paths");
        if paths.JObject? {
          var cm := r.members["compilerOptions"].members;
          var pm := cm["paths"].members;
          assert pm["@/*" := Alias(corePath)] == pm;
          assert cm["paths" := JObject(pm)] == cm;
          assert r.members["compilerOptions" := JObject(cm)] == r.members;
        } else {
          var cm := r.members["compilerOptions"].members;
          assert cm["paths" := paths] == cm;
          assert r.members["compilerOptions" := JObject(cm)] == r.members;
        }
      } else {
        assert r.members["compilerOptions" := co] == r.members;
      }
    }
  }

  /** The text handed to `JSON.parse`: an empty file reads as `{}`. */
  function ParseInput(contents: string): (r: string)
    ensures contents == "" ==> r == "{}"
    ensures contents != "" ==> r == contents
  {
    if contents == "" then "{}" else contents
  }

  /** The whole of `main`, from reading to writing. `contents` is what `readFileSync` returned
      (`None`: it threw), `parse` stands for `JSON.parse` (`None`: it threw),
      `corePath` is the core directory relative to the project root, and
      `writeSucceeds` says whether `writeFileSync` succeeded. On success the
      result is the value written to `tsconfig.json`. */
  method Sync(contents: Option<string>, parse: string -> Option<Json>, corePath: string, writeSucceeds: bool)
    returns (written: Result<Json, string>)
    ensures contents.None? ==> written == Failure(ParseFailure)
    ensures contents.Some? && parse(ParseInput(contents.value)).None? ==> written == Failure(ParseFailure)
    ensures contents.Some? && parse(ParseInput(contents.value)).Some? ==>
      var updated := Updated(parse(ParseInput(contents.value)).value, corePath);
      written == if updated.Failure? || writeSucceeds then updated else Failure(ParseFailure)
  {
    // try { tsconfig = JSON.parse(contents || "{}") } catch { throw ... }
    if contents.None? {
      return Failure(ParseFailure);
    }
    var parsed := parse(ParseInput(contents.value));
    if parsed.None? {
      return Failure(ParseFailure);
    }
    var tsconfig := parsed.value;

    if !IsContainer(tsconfig) {
      return Failure(TypeError);
    }
    if tsconfig.JObject? {
      // tsconfig.compilerOptions ||= {};
      ghost var m := tsconfig.members;
      var compilerOptions := OrEmpty(tsconfig.members, "compilerOptions");
      if !IsContainer(compilerOptions) {
        return Failure(TypeError);
      }
      tsconfig := JObject(tsconfig.members["compilerOptions" := compilerOptions]);
      if compilerOptions.JObject? {
        // tsconfig.compilerOptions.paths ||= {};
        var paths := OrEmpty(compilerOptions.members, "paths");
        if !IsContainer(paths) {
          return Failure(TypeError);
        }
        ghost var cm := compilerOptions.members;
        compilerOptions := JObject(compilerOptions.members["paths" := paths]);
        // tsconfig.compilerOptions.paths["@/*"] = [`./${corePath}/*`];
        if paths.JObject? {
          paths := JObject(paths.members["@/*" := Alias(corePath)]);
          compilerOptions := JObject(compilerOptions.members["paths" := paths]);
          assert compilerOptions.members == cm["paths" := paths];
        }
        tsconfig := JObject(tsconfig.members["compilerOptions" := compilerOptions]);
        assert tsconfig.members == m["compilerOptions" := compilerOptions];
      }
    }

    // try { writeFileSync(...) } catch { throw ... }
    if !writeSucceeds {
      return Failure(ParseFailure);
    }
    return Success(tsconfig);
  }

  /** An empty file is updated as the object `{}` would be, whatever `parse`
      makes of `{}`: the update adds only the alias. */
  lemma EmptyFileGetsOnlyTheAlias(corePath: string)
    ensures Updated(EmptyObject, corePath) ==
      Success(JObject(map["compilerOptions" := JObject(map["paths" := JObject(map["@/*" := Alias(corePath)])])]))
  {
  }
}
