/**
  Module tasting: importing a module under an import hook that hands out
  stand-ins instead of the module's own imports, and checking afterwards that
  the import left no unexpected new entries in the table of loaded modules.
 */
module ModuleTasting {
  import opened Wrappers

  /** The error an import raises, by its message. */
  type ImportError = string

  /**
    What an import call gives back: the module the original import loaded,
    the error the original import raised (which propagates to the caller), or
    a stand-in named after the request.
   */
  datatype ImportResult<M> = Original(imported: M) | OriginalRaised(error: ImportError) | Mocked(name: string)
  {
    /** Whether the call was handed to the original import. */
    predicate ReachedOriginal() {
      Original? || OriginalRaised?
    }
  }

  /**
    The answer of an importer whose counter stands at `timesCalled` to a
    request for `name`: with `skipFirstImport`, the very first request goes to
    the original import; every other request gets a stand-in.
   */
  function Respond<M>(originalImport: string -> Result<M, ImportError>, skipFirstImport: bool, timesCalled: nat,
                      name: string): ImportResult<M>
  {
    if skipFirstImport && timesCalled == 0 then
      match originalImport(name)
      case Success(imported) => Original(imported)
      case Failure(error) => OriginalRaised(error)
    else Mocked(name)
  }

  /** The answers a fresh importer gives to the requests `names`, in order. */
  function Replay<M>(originalImport: string -> Result<M, ImportError>, skipFirstImport: bool, names: seq<string>): (results: seq<ImportResult<M>>)
    ensures |results| == |names|
  {
    seq(|names|, i requires 0 <= i < |names| => Respond(originalImport, skipFirstImport, i, names[i]))
  }

  /** How many of `results` were handed to the original import. */
  function OriginalCount<M>(results: seq<ImportResult<M>>): nat
  {
    if results == [] then 0
    else OriginalCount(results[..|results| - 1]) + (if results[|results| - 1].ReachedOriginal() then 1 else 0)
  }

  /** The import hook installed while a module is tasted. */
  class MockImporter<M> {
    const originalImport: string -> Result<M, ImportError>
    const skipFirstImport: bool
    var timesCalled: nat
    /** The names requested so far, oldest first. */
    ghost var requested: seq<string>

    ghost predicate Valid()
      reads this
    {
      timesCalled == |requested|
    }

    /** The answers given so far, oldest first. */
    ghost function Results(): seq<ImportResult<M>>
      reads this
    {
      Replay(originalImport, skipFirstImport, requested)
    }

    constructor (originalImport: string -> Result<M, ImportError>, skipFirstImport: bool := false)
      ensures Valid() && timesCalled == 0 && requested == []
      ensures this.originalImport == originalImport && this.skipFirstImport == skipFirstImport
    {
      this.originalImport := originalImport;
      this.skipFirstImport := skipFirstImport;
      timesCalled := 0;
      requested := [];
    }

    /** One import request through the hook. */
    method Call(name: string) returns (r: ImportResult<M>)
      requires Valid()
      modifies this
      ensures Valid()
      ensures timesCalled == old(timesCalled) + 1 && requested == old(requested) + [name]
      ensures r == Respond(originalImport, skipFirstImport, old(timesCalled), name)
      ensures Results() == old(Results()) + [r]
    {
      if skipFirstImport && timesCalled == 0 {
        // The counter advances before delegating, so a failing original
        // import still uses up the skip.
        timesCalled := 1;
        match originalImport(name)
        case Success(imported) =>
          r := Original(imported);
        case Failure(error) =>
          r := OriginalRaised(error);
      } else {
        timesCalled := timesCalled + 1;
        r := Mocked(name);
      }
      requested := requested + [name];
      assert Results() == old(Results()) + [r];
    }
  }

  /**
    Whatever the requests, a fresh importer hands out the original import at
    most once: exactly once when the first request is skipped, never otherwise.
   */
  lemma {:induction false} OriginalImportAtMostOnce<M>(originalImport: string -> Result<M, ImportError>, skipFirstImport: bool, names: seq<string>)
    ensures OriginalCount(Replay(originalImport, skipFirstImport, names)) ==
              if skipFirstImport && names != [] then 1 else 0
  {
    if names != [] {
      var prefix := names[..|names| - 1];
      OriginalImportAtMostOnce(originalImport, skipFirstImport, prefix);
      var rs := Replay(originalImport, skipFirstImport, names);
      assert rs[..|rs| - 1] == Replay(originalImport, skipFirstImport, prefix);
    }
  }

  /**
    Every request except a skipped first one is answered by a stand-in named
    after the request; the skipped first one goes to the original import,
    and gets its module when that import succeeds.
   */
  lemma ReplayAnswers<M>(originalImport: string -> Result<M, ImportError>, skipFirstImport: bool, names: seq<string>, i: nat)
    requires i < |names|
    ensures Replay(originalImport, skipFirstImport, names)[i].ReachedOriginal() <==> skipFirstImport && i == 0
    ensures skipFirstImport && i == 0 && originalImport(names[0]).Success? ==>
              Replay(originalImport, skipFirstImport, names)[i] == Original(originalImport(names[0]).value)
    ensures !(skipFirstImport && i == 0) ==> Replay(originalImport, skipFirstImport, names)[i] == Mocked(names[i])
  {
  }

  // --------------------------------------------------------------- tasting

  /** The module names the tasting check tolerates as new. */
  const KnownFalsePositiveNewModules: set<string> := {"garlicsim.general_misc.zlib"}

  /** The prefix of the name a non-zip module is imported under. */
  const TastedNamePrefix: string := "tasted_module_"

  ghost predicate OccursAt(s: string, sub: string, i: nat)
  {
    i + |sub| <= |s| && s[i..i + |sub|] == sub
  }

  /** Python's `sub in s` on strings. */
  function ContainsSubstring(s: string, sub: string): (r: bool)
    ensures r <==> exists i :: 0 <= i <= |s| && OccursAt(s, sub, i)
    decreases |s|
  {
    if |s| < |sub| then false
    else if s[..|sub|] == sub then assert OccursAt(s, sub, 0); true
    else
      var rest := ContainsSubstring(s[1..], sub);
      assert forall i :: 0 <= i <= |s| - 1 && OccursAt(s[1..], sub, i) ==> OccursAt(s, sub, i + 1);
      assert forall j :: 1 <= j <= |s| && OccursAt(s, sub, j) ==> OccursAt(s[1..], sub, j - 1);
      assert !OccursAt(s, sub, 0);
      rest
  }

  function IsZipModule(path: string): bool
  {
    ContainsSubstring(path, ".zip")
  }

  /** Any path through a `.zip` archive counts as a zip module. */
  lemma ArchiveMemberIsZipModule(archive: string, inner: string)
    ensures IsZipModule(archive + ".zip" + inner)
  {
    var path := archive + ".zip" + inner;
    assert path[|archive|..|archive| + 4] == ".zip";
    assert OccursAt(path, ".zip", |archive|);
  }

  /** How a module is imported for tasting: under which name, and whether the hook lets the first import through. */
  datatype TastingPlan = TastingPlan(name: Option<string>, skipFirstImport: bool)

  /**
    A zip module is imported under no name of its own and with the first
    import let through; any other module under a fresh generated name, with
    every import intercepted. `freshId` stands for the random identifier.
   */
  function PlanTasting(path: string, freshId: string): (plan: TastingPlan)
    ensures plan.skipFirstImport <==> exists i :: 0 <= i <= |path| && OccursAt(path, ".zip", i)
    ensures plan.name.None? <==> plan.skipFirstImport
    ensures plan.name.Some? ==> plan.name.value == TastedNamePrefix + freshId
  {
    var isZipModule := IsZipModule(path);
    TastingPlan(if isZipModule then None else Some(TastedNamePrefix + freshId), isZipModule)
  }

  /**
    The names in the listing of loaded modules taken after tasting that are
    not among the names loaded before.
   */
  function NewModuleNames(loadedAfter: seq<string>, loadedBefore: set<string>): (names: seq<string>)
    ensures forall name :: name in names <==> name in loadedAfter && name !in loadedBefore
    ensures |names| <= |loadedAfter|
  {
    if loadedAfter == [] then []
    else
      var rest := NewModuleNames(loadedAfter[1..], loadedBefore);
      assert forall name :: name in loadedAfter <==> name == loadedAfter[0] || name in loadedAfter[1..];
      if loadedAfter[0] in loadedBefore then rest else [loadedAfter[0]] + rest
  }

  /** The set of new names is the set of names loaded after tasting minus those loaded before. */
  lemma NewModuleNamesAreTheDifference(loadedAfter: seq<string>, loadedBefore: set<string>)
    ensures (set name | name in NewModuleNames(loadedAfter, loadedBefore)) == (set name | name in loadedAfter) - loadedBefore
  {
  }

  /**
    Both checks of tasting fail with an assertion error that carries no
    message; the two cases are told apart here.
   */
  datatype TasteError = PathDoesNotExist | UnexpectedNewModules

  /**
    Tasting a module at `path`. The file system, the random name and the
    import itself are parameters: `pathExists` answers whether the path
    exists, `importByPath` maps the path, the import name and the hook's skip
    flag to the imported module and the listing of loaded module names
    afterwards, and `loadedBefore` holds the names loaded before.
   */
  function TasteModule<M>(path: string, pathExists: bool, freshId: string, loadedBefore: set<string>,
                          importByPath: (string, Option<string>, bool) -> (M, seq<string>)): (r: Result<M, TasteError>)
    ensures r == Failure(PathDoesNotExist) <==> !IsZipModule(path) && !pathExists
    ensures var plan := PlanTasting(path, freshId);
            var (imported, loadedAfter) := importByPath(path, plan.name, plan.skipFirstImport);
            && (r.Success? <==>
                  && (IsZipModule(path) || pathExists)
                  && forall name :: name in loadedAfter && name !in loadedBefore ==> name in KnownFalsePositiveNewModules)
            && (r.Success? ==> r.value == imported)
  {
    if !IsZipModule(path) && !pathExists then Failure(PathDoesNotExist)
    else
      var plan := PlanTasting(path, freshId);
      var (imported, loadedAfter) := importByPath(path, plan.name, plan.skipFirstImport);
      var newModules := NewModuleNames(loadedAfter, loadedBefore);
      if (set name | name in newModules) <= KnownFalsePositiveNewModules then Success(imported)
      else Failure(UnexpectedNewModules)
  }

  /** Tasting never objects to an import that loaded nothing new, or only the tolerated name. */
  lemma ToleratedImportsPass<M>(path: string, freshId: string, loadedBefore: set<string>,
                                importByPath: (string, Option<string>, bool) -> (M, seq<string>))
    requires var plan := PlanTasting(path, freshId);
             forall name :: name in importByPath(path, plan.name, plan.skipFirstImport).1 ==>
               name in loadedBefore || name in KnownFalsePositiveNewModules
    ensures TasteModule(path, true, freshId, loadedBefore, importByPath).Success?
  {
  }
}
