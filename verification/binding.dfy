/**
 * The change-detecting binding over several source paths
 * (Assets/Scripts/Data/MultiDependencyBinding.cs).
 *
 * Values are of an abstract type `V`, compared with `==` where the source
 * uses `Equals`; `None` stands for null. The host's property lookup, its
 * value-setting primitive and the converter are parameters or fields of
 * function type.
 */
module Binding {
  import opened Optional

  /** What the host's property lookup reports for one segment. */
  datatype Lookup<V> = Found(value: Option<V>) | NotFound

  /** What the host's value-setting primitive reports. */
  datatype SetOutcome = Applied | Rejected(errorCode: string)

  datatype BindingResult = Success | Failure(message: string)

  const NotAllResolved: string := "Not all paths could be resolved"
  const BindingFailedPrefix: string := "Binding failed: "
  const DummyIdPrefix: string := "__"

  // ---------------------------------------------------------------- paths

  /** string.Split('.'): the segments between dots, empty ones included. */
  function Split(s: string): (parts: seq<string>)
    ensures |parts| >= 1
    ensures forall i :: 0 <= i < |parts| ==> '.' !in parts[i]
    decreases |s|
  {
    if s == [] then [""]
    else
      var rest := Split(s[1..]);
      if s[0] == '.' then [""] + rest else [[s[0]] + rest[0]] + rest[1..]
  }

  /** The segments put back together with dots between them. */
  function Join(parts: seq<string>): string
    requires |parts| >= 1
    decreases |parts|
  {
    if |parts| == 1 then parts[0] else parts[0] + "." + Join(parts[1..])
  }

  /** Splitting loses nothing: joining the segments gives the path back. */
  lemma {:induction false} JoinSplit(s: string)
    ensures Join(Split(s)) == s
    decreases |s|
  {
    if s != [] {
      var rest := Split(s[1..]);
      JoinSplit(s[1..]);
      if s[0] == '.' {
        assert Split(s)[1..] == rest;
        assert s == "." + s[1..];
      } else if |rest| == 1 {
        assert s == [s[0]] + s[1..];
      } else {
        assert Split(s)[1..] == rest[1..];
        assert s == [s[0]] + s[1..];
      }
    }
  }

  /** A dot splits a path into the segments of its two sides. */
  lemma {:induction false} SplitDotted(p: string, q: string)
    ensures Split(p + "." + q) == Split(p) + Split(q)
    decreases |p|
  {
    if p == [] {
      assert p + "." + q == "." + q;
      assert ("." + q)[1..] == q;
    } else {
      assert (p + "." + q)[1..] == p[1..] + "." + q;
      SplitDotted(p[1..], q);
    }
  }

  // ---------------------------------------------------------------- values

  /** Resolving segments left to right from `current`; null or a missing segment gives null. */
  function Resolve<V>(current: Option<V>, parts: seq<string>, lookup: (V, string) -> Lookup<V>): Option<V>
    decreases |parts|
  {
    if parts == [] then current
    else if current.None? then None
    else match lookup(current.value, parts[0]) {
      case Found(next) => Resolve(next, parts[1..], lookup)
      case NotFound => None
    }
  }

  /** A null along the way stays null. */
  lemma ResolveNull<V>(parts: seq<string>, lookup: (V, string) -> Lookup<V>)
    ensures Resolve(None, parts, lookup) == None
  {
  }

  /** Resolving `a` then `b` is resolving their concatenation. */
  lemma {:induction false} ResolveAppend<V>(current: Option<V>, a: seq<string>, b: seq<string>, lookup: (V, string) -> Lookup<V>)
    ensures Resolve(current, a + b, lookup) == Resolve(Resolve(current, a, lookup), b, lookup)
    decreases |a|
  {
    if a == [] {
      assert a + b == b;
    } else if current.None? {
      ResolveNull(b, lookup);
    } else {
      assert (a + b)[0] == a[0] && (a + b)[1..] == a[1..] + b;
      match lookup(current.value, a[0]) {
        case Found(next) => ResolveAppend(next, a[1..], b, lookup);
        case NotFound => ResolveNull(b, lookup);
      }
    }
  }

  /** GetValue's meaning: null for a null source or an empty path, else the resolution of its segments. */
  function ResolvePath<V>(source: Option<V>, path: string, lookup: (V, string) -> Lookup<V>): Option<V>
  {
    if source.None? || path == "" then None else Resolve(source, Split(path), lookup)
  }

  /** A dotted path resolves its first part, then the rest from there. */
  lemma DottedPath<V>(source: Option<V>, p: string, q: string, lookup: (V, string) -> Lookup<V>)
    requires p != "" && q != ""
    ensures ResolvePath(source, p + "." + q, lookup) == ResolvePath(ResolvePath(source, p, lookup), q, lookup)
  {
    if source.Some? {
      assert p + "." + q != "" by { assert |p + "." + q| > 0; }
      SplitDotted(p, q);
      ResolveAppend(source, Split(p), Split(q), lookup);
      ResolveNull(Split(q), lookup);
    }
  }

  // ---------------------------------------------------------------- paths to watch

  /** The non-empty strings of `s`, in order. */
  function NonEmpty(s: seq<string>): (r: seq<string>)
    ensures forall p :: p in r <==> p in s && p != ""
    ensures |r| <= |s|
  {
    if s == [] then [] else (if s[0] == "" then [] else [s[0]]) + NonEmpty(s[1..])
  }

  /** Filtering keeps the order: it distributes over concatenation. */
  lemma {:induction false} NonEmptyAppend(a: seq<string>, b: seq<string>)
    ensures NonEmpty(a + b) == NonEmpty(a) + NonEmpty(b)
    decreases |a|
  {
    if a == [] {
      assert a + b == b;
    } else {
      assert (a + b)[0] == a[0] && (a + b)[1..] == a[1..] + b;
      NonEmptyAppend(a[1..], b);
    }
  }

  /** A property change concerns the binding when some watched path starts with the property's name. */
  predicate Watches(paths: seq<string>, propertyName: string)
  {
    exists p :: p in paths && propertyName <= p
  }

  // ---------------------------------------------------------------- change detection

  /** The cache after writing every resolved path in order. */
  function CacheAfter<V>(cache: map<string, V>, paths: seq<string>, source: Option<V>, lookup: (V, string) -> Lookup<V>): map<string, V>
    decreases |paths|
  {
    if paths == [] then cache
    else
      var before := CacheAfter(cache, paths[..|paths| - 1], source, lookup);
      var p := paths[|paths| - 1];
      match ResolvePath(source, p, lookup) {
        case None => before
        case Some(v) => before[p := v]
      }
  }

  /** The resolved values, in path order, skipping the unresolved paths. */
  function Resolved<V>(paths: seq<string>, source: Option<V>, lookup: (V, string) -> Lookup<V>): seq<V>
    decreases |paths|
  {
    if paths == [] then []
    else
      Resolved(paths[..|paths| - 1], source, lookup) +
      match ResolvePath(source, paths[|paths| - 1], lookup) {
        case None => []
        case Some(v) => [v]
      }
  }

  /** Some watched path resolves to a value that the cache lacks or holds differently. */
  ghost predicate ChangedBy<V>(cache: map<string, V>, paths: seq<string>, source: Option<V>, lookup: (V, string) -> Lookup<V>)
  {
    exists j :: 0 <= j < |paths| && ResolvePath(source, paths[j], lookup).Some? &&
      (paths[j] !in cache || cache[paths[j]] != ResolvePath(source, paths[j], lookup).value)
  }

  /** Every path resolves. */
  predicate AllResolve<V>(paths: seq<string>, source: Option<V>, lookup: (V, string) -> Lookup<V>)
  {
    forall j :: 0 <= j < |paths| ==> ResolvePath(source, paths[j], lookup).Some?
  }

  /** The cache holds each resolved path's value and keeps every other entry. */
  lemma {:induction false} CacheAfterContents<V>(cache: map<string, V>, paths: seq<string>, source: Option<V>,
                                                 lookup: (V, string) -> Lookup<V>, k: string)
    ensures var c := CacheAfter(cache, paths, source, lookup);
      if k in paths && ResolvePath(source, k, lookup).Some?
      then k in c && c[k] == ResolvePath(source, k, lookup).value
      else (k in c <==> k in cache) && (k in c ==> c[k] == cache[k])
    decreases |paths|
  {
    if paths != [] {
      var prefix := paths[..|paths| - 1];
      CacheAfterContents(cache, prefix, source, lookup, k);
      assert paths == prefix + [paths[|paths| - 1]];
      assert k in paths <==> k in prefix || k == paths[|paths| - 1];
    }
  }

  /** Writing the resolved values changes the cache exactly when some path brings a new or different value. */
  lemma CacheChanged<V>(cache: map<string, V>, paths: seq<string>, source: Option<V>, lookup: (V, string) -> Lookup<V>)
    ensures CacheAfter(cache, paths, source, lookup) != cache <==> ChangedBy(cache, paths, source, lookup)
  {
    var c := CacheAfter(cache, paths, source, lookup);
    if ChangedBy(cache, paths, source, lookup) {
      var j :| 0 <= j < |paths| && ResolvePath(source, paths[j], lookup).Some? &&
        (paths[j] !in cache || cache[paths[j]] != ResolvePath(source, paths[j], lookup).value);
      CacheAfterContents(cache, paths, source, lookup, paths[j]);
    } else {
      forall k | true
        ensures (k in c <==> k in cache) && (k in c ==> c[k] == cache[k])
      {
        CacheAfterContents(cache, paths, source, lookup, k);
        if k in paths && ResolvePath(source, k, lookup).Some? {
          var j :| 0 <= j < |paths| && paths[j] == k;
        }
      }
      assert c == cache;
    }
  }

  /** Writing the same values again changes nothing: a second Update on an unchanged source detects no change. */
  lemma CacheAfterIdempotent<V>(cache: map<string, V>, paths: seq<string>, source: Option<V>, lookup: (V, string) -> Lookup<V>)
    ensures var c := CacheAfter(cache, paths, source, lookup);
      CacheAfter(c, paths, source, lookup) == c
  {
    var c := CacheAfter(cache, paths, source, lookup);
    if ChangedBy(c, paths, source, lookup) {
      var j :| 0 <= j < |paths| && ResolvePath(source, paths[j], lookup).Some? &&
        (paths[j] !in c || c[paths[j]] != ResolvePath(source, paths[j], lookup).value);
      CacheAfterContents(cache, paths, source, lookup, paths[j]);
    }
    CacheChanged(c, paths, source, lookup);
  }

  /** All values are present exactly when every path resolves. */
  lemma {:induction false} ResolvedCount<V>(paths: seq<string>, source: Option<V>, lookup: (V, string) -> Lookup<V>)
    ensures |Resolved(paths, source, lookup)| <= |paths|
    ensures |Resolved(paths, source, lookup)| == |paths| <==> AllResolve(paths, source, lookup)
    decreases |paths|
  {
    if paths != [] {
      var n := |paths| - 1;
      var prefix := paths[..n];
      ResolvedCount(prefix, source, lookup);
      assert forall j :: 0 <= j < n ==> prefix[j] == paths[j];
      if ResolvePath(source, paths[n], lookup).Some? {
        assert AllResolve(paths, source, lookup) <==> AllResolve(prefix, source, lookup);
      } else {
        assert !AllResolve(paths, source, lookup);
      }
    }
  }

  /** When every path resolves, the values are the paths' values in path order. */
  lemma {:induction false} ResolvedInOrder<V>(paths: seq<string>, source: Option<V>, lookup: (V, string) -> Lookup<V>)
    requires AllResolve(paths, source, lookup)
    ensures |Resolved(paths, source, lookup)| == |paths|
    ensures forall j :: 0 <= j < |paths| ==> Resolved(paths, source, lookup)[j] == ResolvePath(source, paths[j], lookup).value
    decreases |paths|
  {
    if paths != [] {
      var n := |paths| - 1;
      var prefix := paths[..n];
      assert forall j :: 0 <= j < n ==> prefix[j] == paths[j];
      assert AllResolve(prefix, source, lookup);
      ResolvedInOrder(prefix, source, lookup);
      assert Resolved(paths, source, lookup) ==
        Resolved(prefix, source, lookup) + [ResolvePath(source, paths[n], lookup).value];
    }
  }

  /** One more path: the change flag grows by that path's own comparison against the cache so far. */
  lemma ChangedStep<V>(cache: map<string, V>, paths: seq<string>, i: nat, source: Option<V>, lookup: (V, string) -> Lookup<V>)
    requires i < |paths| && ResolvePath(source, paths[i], lookup).Some?
    ensures var cur := CacheAfter(cache, paths[..i], source, lookup);
      var v := ResolvePath(source, paths[i], lookup).value;
      ChangedBy(cache, paths[..i + 1], source, lookup) <==>
        ChangedBy(cache, paths[..i], source, lookup) || paths[i] !in cur || cur[paths[i]] != v
  {
    var p := paths[i];
    var cur := CacheAfter(cache, paths[..i], source, lookup);
    CacheAfterContents(cache, paths[..i], source, lookup, p);
    var pre := paths[..i];
    var post := paths[..i + 1];
    assert forall j :: 0 <= j < i ==> post[j] == pre[j];
    assert post[i] == p;
    if p in pre {
      var j :| 0 <= j < i && pre[j] == p;
      assert post[j] == p;
    }
  }

  /** One more path writes that path's value, if it resolves, over the cache so far. */
  lemma CacheStep<V>(cache: map<string, V>, paths: seq<string>, i: nat, source: Option<V>, lookup: (V, string) -> Lookup<V>)
    requires i < |paths|
    ensures var r := ResolvePath(source, paths[i], lookup);
      var cur := CacheAfter(cache, paths[..i], source, lookup);
      CacheAfter(cache, paths[..i + 1], source, lookup) == if r.Some? then cur[paths[i] := r.value] else cur
  {
    assert paths[..i + 1][..i] == paths[..i];
  }

  /** One more path adds its value, if it resolves, to the values so far. */
  lemma ResolvedStep<V>(paths: seq<string>, i: nat, source: Option<V>, lookup: (V, string) -> Lookup<V>)
    requires i < |paths|
    ensures var r := ResolvePath(source, paths[i], lookup);
      Resolved(paths[..i + 1], source, lookup) == Resolved(paths[..i], source, lookup) + if r.Some? then [r.value] else []
  {
    assert paths[..i + 1][..i] == paths[..i];
  }

  /** A path that does not resolve adds no change. */
  lemma UnchangedStep<V>(cache: map<string, V>, paths: seq<string>, i: nat, source: Option<V>, lookup: (V, string) -> Lookup<V>)
    requires i < |paths| && ResolvePath(source, paths[i], lookup).None?
    ensures ChangedBy(cache, paths[..i + 1], source, lookup) <==> ChangedBy(cache, paths[..i], source, lookup)
  {
    assert forall j :: 0 <= j < i ==> paths[..i + 1][j] == paths[..i][j];
  }

  /** The callback's arguments: the first `arity` values, only when that many are there. */
  function Fire<V>(arity: Option<nat>, values: seq<V>): (calls: seq<seq<V>>)
    ensures |calls| <= 1
    ensures |calls| == 1 <==> arity.Some? && |values| >= arity.value
    ensures forall c :: c in calls ==> |c| == arity.value && c == values[..arity.value]
  {
    if arity.Some? && |values| >= arity.value then [values[..arity.value]] else []
  }

  /** What the converter branch returns. */
  function ConverterOutcome<V>(converter: Option<seq<V> -> Option<V>>, values: seq<V>, bindingId: string,
                               trySet: (string, V) -> SetOutcome): (r: BindingResult)
    ensures r.Failure? <==>
      converter.Some? && converter.value(values).Some? && !(DummyIdPrefix <= bindingId) &&
      trySet(bindingId, converter.value(values).value).Rejected?
    ensures r.Failure? ==>
      r.message == BindingFailedPrefix + trySet(bindingId, converter.value(values).value).errorCode
  {
    if converter.None? then Success
    else
      var result := converter.value(values);
      if result.None? || DummyIdPrefix <= bindingId then Success
      else match trySet(bindingId, result.value) {
        case Applied => Success
        case Rejected(code) => Failure(BindingFailedPrefix + code)
      }
  }

  class MultiDependencyBinding<V(==)> {
    var dependencyPaths: seq<string>
    var sourcePath: string
    var converter: Option<seq<V> -> Option<V>>
    var lastValues: map<string, V>
    /** Subscribed to a notifying data source. */
    var subscribed: bool
    /** The argument count of the callback set by AddCallback, if any. */
    var callbackArity: Option<nat>
    var dirty: bool
    /** The argument lists passed to the user callback, in order. */
    ghost var fired: seq<seq<V>>

    constructor ()
      ensures dependencyPaths == [] && sourcePath == "" && converter.None? && lastValues == map[]
      ensures !subscribed && callbackArity.None? && !dirty && fired == []
    {
      dependencyPaths := [];
      sourcePath := "";
      converter := None;
      lastValues := map[];
      subscribed := false;
      callbackArity := None;
      dirty := false;
      fired := [];
    }

    /**
     * GetPaths: the source path, if non-empty, then the non-empty dependency
     * paths, in their order.
     */
    function GetPaths(): (paths: seq<string>)
      reads this
      ensures forall p :: p in paths <==> p != "" && (p == sourcePath || p in dependencyPaths)
      ensures sourcePath != "" ==> |paths| >= 1 && paths[0] == sourcePath && paths[1..] == NonEmpty(dependencyPaths)
      ensures sourcePath == "" ==> paths == NonEmpty(dependencyPaths)
    {
      (if sourcePath == "" then [] else [sourcePath]) + NonEmpty(dependencyPaths)
    }

    /** AddCallback, for each of the one-, two- and three-argument overloads. */
    method AddCallback(arity: nat)
      requires 1 <= arity <= 3
      modifies this
      ensures callbackArity == Some(arity)
      ensures lastValues == old(lastValues) && converter == old(converter) && fired == old(fired)
      ensures dependencyPaths == old(dependencyPaths) && sourcePath == old(sourcePath)
      ensures subscribed == old(subscribed) && dirty == old(dirty)
    {
      callbackArity := Some(arity);
    }

    /** SetConverter, every overload being a function of the value list. */
    method SetConverter(f: seq<V> -> Option<V>)
      modifies this
      ensures converter == Some(f)
      ensures lastValues == old(lastValues) && callbackArity == old(callbackArity) && fired == old(fired)
      ensures dependencyPaths == old(dependencyPaths) && sourcePath == old(sourcePath)
      ensures subscribed == old(subscribed) && dirty == old(dirty)
    {
      converter := Some(f);
    }

    /** OnDataSourceChanged: subscribe to the new source only when it notifies. */
    method OnDataSourceChanged(notifies: bool)
      modifies this
      ensures subscribed == notifies
      ensures lastValues == old(lastValues) && converter == old(converter) && callbackArity == old(callbackArity)
      ensures dependencyPaths == old(dependencyPaths) && sourcePath == old(sourcePath) && fired == old(fired)
      ensures dirty == old(dirty)
    {
      subscribed := notifies;
    }

    /** OnDeactivated: unsubscribe and drop the callback, the cache and the converter. */
    method OnDeactivated()
      modifies this
      ensures !subscribed && callbackArity.None? && lastValues == map[] && converter.None?
      ensures dependencyPaths == old(dependencyPaths) && sourcePath == old(sourcePath) && fired == old(fired)
      ensures dirty == old(dirty)
    {
      subscribed := false;
      callbackArity := None;
      lastValues := map[];
      converter := None;
    }

    /**
     * OnSourcePropertyChanged: a change to a watched property drops the cache
     * entry keyed by exactly that name and marks the binding dirty.
     */
    method OnSourcePropertyChanged(propertyName: string)
      modifies this
      ensures Watches(GetPaths(), propertyName) ==> lastValues == old(lastValues) - {propertyName} && dirty
      ensures !Watches(GetPaths(), propertyName) ==> lastValues == old(lastValues) && dirty == old(dirty)
      ensures dependencyPaths == old(dependencyPaths) && sourcePath == old(sourcePath) && fired == old(fired)
      ensures converter == old(converter) && callbackArity == old(callbackArity)
      ensures subscribed == old(subscribed)
    {
      var watchedPaths := GetPaths();
      if exists p :: p in watchedPaths && propertyName <= p {
        if propertyName in lastValues {
          lastValues := map k | k in lastValues && k != propertyName :: lastValues[k];
        }
        dirty := true;
      }
    }

    /** GetValue: walks the segments of `path` from `source`. */
    method GetValue(source: Option<V>, path: string, lookup: (V, string) -> Lookup<V>) returns (r: Option<V>)
      ensures r == ResolvePath(source, path, lookup)
    {
      if source.None? || path == "" {
        return None;
      }
      var current := source;
      var parts := Split(path);
      var i := 0;
      while i < |parts|
        invariant 0 <= i <= |parts|
        invariant Resolve(current, parts[i..], lookup) == Resolve(source, parts, lookup)
      {
        if current.None? {
          return None;
        }
        match lookup(current.value, parts[i]) {
          case Found(next) =>
            current := next;
          case NotFound =>
            return None;
        }
        assert parts[i..][1..] == parts[i + 1..];
        i := i + 1;
      }
      return current;
    }

    /**
     * The loop of Update over the watched paths: resolve each one, collect the
     * values, and write a new or different value to the cache, noting the change.
     */
    method ScanPaths(paths: seq<string>, cache0: map<string, V>, source: Option<V>, lookup: (V, string) -> Lookup<V>)
      returns (cache: map<string, V>, values: seq<V>, hasChanges: bool)
      ensures cache == CacheAfter(cache0, paths, source, lookup)
      ensures values == Resolved(paths, source, lookup)
      ensures hasChanges <==> cache != cache0
    {
      cache := cache0;
      values := [];
      hasChanges := false;
      var i := 0;
      while i < |paths|
        invariant 0 <= i <= |paths|
        invariant cache == CacheAfter(cache0, paths[..i], source, lookup)
        invariant values == Resolved(paths[..i], source, lookup)
        invariant hasChanges <==> ChangedBy(cache0, paths[..i], source, lookup)
      {
        var path := paths[i];
        var value := GetValue(source, path, lookup);
        CacheStep(cache0, paths, i, source, lookup);
        ResolvedStep(paths, i, source, lookup);
        if value.Some? {
          ChangedStep(cache0, paths, i, source, lookup);
          values := values + [value.value];
          if path !in cache || cache[path] != value.value {
            cache := cache[path := value.value];
            hasChanges := true;
          } else {
            assert cache[path := value.value] == cache;
          }
        } else {
          UnchangedStep(cache0, paths, i, source, lookup);
        }
        i := i + 1;
      }
      assert paths[..i] == paths;
      CacheChanged(cache0, paths, source, lookup);
    }

    /**
     * Update: resolves every watched path, writes new or changed values to the
     * cache, and then, unless nothing changed in a non-empty cache, requires
     * every path to have resolved before running the callback and the converter.
     */
    method Update(source: Option<V>, bindingId: string, lookup: (V, string) -> Lookup<V>,
                  trySet: (string, V) -> SetOutcome) returns (r: BindingResult)
      modifies this
      ensures dependencyPaths == old(dependencyPaths) && sourcePath == old(sourcePath)
      ensures converter == old(converter) && callbackArity == old(callbackArity)
      ensures subscribed == old(subscribed) && dirty == old(dirty)
      ensures var paths := GetPaths();
        if paths == [] then r == Success && lastValues == old(lastValues) && fired == old(fired)
        else
          lastValues == CacheAfter(old(lastValues), paths, source, lookup) &&
          if lastValues == old(lastValues) && |lastValues| > 0 then r == Success && fired == old(fired)
          else if !AllResolve(paths, source, lookup) then r == Failure(NotAllResolved) && fired == old(fired)
          else
            var values := Resolved(paths, source, lookup);
            fired == old(fired) + Fire(callbackArity, values) &&
            r == ConverterOutcome(converter, values, bindingId, trySet)
    {
      var paths := GetPaths();
      if |paths| == 0 {
        return Success;
      }
      var cache, values, hasChanges := ScanPaths(paths, lastValues, source, lookup);
      lastValues := cache;
      if !hasChanges && |lastValues| > 0 {
        return Success;
      }
      ResolvedCount(paths, source, lookup);
      if |values| != |paths| {
        return Failure(NotAllResolved);
      }
      r := RunCallbackAndConverter(values, bindingId, trySet);
    }

    /** The end of Update: the callback, if set, then the converter, if set. */
    method RunCallbackAndConverter(values: seq<V>, bindingId: string, trySet: (string, V) -> SetOutcome)
      returns (r: BindingResult)
      modifies this
      ensures fired == old(fired) + Fire(callbackArity, values)
      ensures r == ConverterOutcome(converter, values, bindingId, trySet)
      ensures lastValues == old(lastValues) && converter == old(converter) && callbackArity == old(callbackArity)
      ensures dependencyPaths == old(dependencyPaths) && sourcePath == old(sourcePath)
      ensures subscribed == old(subscribed) && dirty == old(dirty)
    {
      if callbackArity.Some? && |values| >= callbackArity.value {
        fired := fired + [values[..callbackArity.value]];
      }
      if converter.Some? {
        var result := converter.value(values);
        if result.None? || DummyIdPrefix <= bindingId {
          return Success;
        }
        match trySet(bindingId, result.value) {
          case Applied =>
            return Success;
          case Rejected(code) =>
            return Failure(BindingFailedPrefix + code);
        }
      }
      return Success;
    }
  }
}
