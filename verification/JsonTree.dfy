/** Decoded aXAPI responses, the metadata filter of the revision, and the raw
    reference scan used before any file is deleted.

    A node of the tree is addressed by a path, which gives the filter and the
    scan a meaning that does not depend on how they recurse. */
module JsonTree {
  import opened Wrappers

  /** An object is a map: duplicate keys and key order do not survive decoding.
      Numbers are opaque to everything here except the 0/1 booleans of aXAPI. */
  datatype Json =
    | Null
    | Bool(flag: bool)
    | Number(value: real)
    | String(text: string)
    | Array(items: seq<Json>)
    | Object(fields: map<string, Json>)

  /** Keys that ACOS generates; they carry no configuration. */
  const GENERATED: set<string> := {"uuid", "a10-url"}

  /** Removes generated metadata at every depth. */
  function Strip(value: Json): Json {
    match value
    case Array(items) => Array(seq(|items|, i requires 0 <= i < |items| => Strip(items[i])))
    case Object(fields) => Object(map key | key in fields && key !in GENERATED :: Strip(fields[key]))
    case _ => value
  }

  /** Deletes the generated keys of an object, then walks what is left. */
  method RemoveGeneratedMetadata(value: Json) returns (cleaned: Json)
    ensures cleaned == Strip(value)
    decreases value
  {
    cleaned := value;
    match value {
      case Object(fields) =>
        var kept := fields - GENERATED;
        var left, walked := kept.Keys, kept;
        while left != {}
          invariant left <= kept.Keys == walked.Keys
          invariant forall key :: key in kept ==> walked[key] == if key in left then kept[key] else Strip(fields[key])
        {
          var key :| key in left;
          var child := RemoveGeneratedMetadata(fields[key]);
          walked, left := walked[key := child], left - {key};
        }
        cleaned := Object(walked);
      case Array(items) =>
        var walked: seq<Json> := [];
        for i := 0 to |items|
          invariant |walked| == i && forall j :: 0 <= j < i ==> walked[j] == Strip(items[j])
        {
          var child := RemoveGeneratedMetadata(items[i]);
          walked := walked + [child];
        }
        cleaned := Array(walked);
      case _ =>
    }
  }

  /** True when some string leaf of the tree equals the target. */
  predicate ContainsString(value: Json, target: string) {
    match value
    case String(text) => text == target
    case Array(items) => exists i :: 0 <= i < |items| && ContainsString(items[i], target)
    case Object(fields) => exists key :: key in fields && ContainsString(fields[key], target)
    case _ => false
  }

  datatype Hop = Index(at: nat) | Key(name: string)

  /** The node at the end of a path, if the path exists. */
  function At(value: Json, path: seq<Hop>): Option<Json> {
    if path == [] then Some(value)
    else
      match value
      case Array(items) => if path[0].Index? && path[0].at < |items| then At(items[path[0].at], path[1..]) else None
      case Object(fields) =>
        if path[0].Key? && path[0].name in fields then At(fields[path[0].name], path[1..]) else None
      case _ => None
  }

  /** The path runs through no generated key. */
  predicate Clean(path: seq<Hop>) {
    forall i :: 0 <= i < |path| && path[i].Key? ==> path[i].name !in GENERATED
  }

  /** What stripping means: a path survives exactly when it existed and is clean,
      and what it leads to is the stripped form of what was there. */
  lemma {:induction false} StripAt(value: Json, path: seq<Hop>)
    ensures At(Strip(value), path) ==
            if Clean(path) && At(value, path).Some? then Some(Strip(At(value, path).value)) else None
  {
    if path != [] {
      assert Clean(path) <==> (path[0].Key? ==> path[0].name !in GENERATED) && Clean(path[1..]) by {
        assert path == [path[0]] + path[1..];
      }
      match value
      case Array(items) =>
        if path[0].Index? && path[0].at < |items| { StripAt(items[path[0].at], path[1..]); }
      case Object(fields) =>
        if path[0].Key? && path[0].name in fields { StripAt(fields[path[0].name], path[1..]); }
      case _ =>
    }
  }

  lemma {:induction false} StripIdempotent(value: Json)
    ensures Strip(Strip(value)) == Strip(value)
  {
    match value
    case Array(items) => forall i | 0 <= i < |items| { StripIdempotent(items[i]); }
    case Object(fields) => forall key | key in fields { StripIdempotent(fields[key]); }
    case _ =>
  }

  /** The scan is exact: it succeeds on precisely the trees that hold the target
      as a string at the end of some path. */
  lemma {:induction false} ScanIsExact(value: Json, target: string)
    ensures ContainsString(value, target) <==> exists path :: At(value, path) == Some(String(target))
  {
    if ContainsString(value, target) {
      var path := ScanFinds(value, target);
    }
    forall path | At(value, path) == Some(String(target))
      ensures ContainsString(value, target)
    {
      ScanCovers(value, target, path);
    }
  }

  lemma {:induction false} ScanFinds(value: Json, target: string) returns (path: seq<Hop>)
    requires ContainsString(value, target)
    ensures At(value, path) == Some(String(target))
  {
    match value
    case String(_) => path := [];
    case Array(items) =>
      var i :| 0 <= i < |items| && ContainsString(items[i], target);
      var rest := ScanFinds(items[i], target);
      path := [Index(i)] + rest;
      assert path[1..] == rest;
    case Object(fields) =>
      var key :| key in fields && ContainsString(fields[key], target);
      var rest := ScanFinds(fields[key], target);
      path := [Key(key)] + rest;
      assert path[1..] == rest;
  }

  lemma {:induction false} ScanCovers(value: Json, target: string, path: seq<Hop>)
    requires At(value, path) == Some(String(target))
    ensures ContainsString(value, target)
  {
    if path != [] {
      match value
      case Array(items) => ScanCovers(items[path[0].at], target, path[1..]);
      case Object(fields) => ScanCovers(fields[path[0].name], target, path[1..]);
    }
  }

  /** Stripping never invents a string, so a name found in the stripped tree is
      also found by a scan of the whole response. */
  lemma {:induction false} StripKeepsStrings(value: Json, target: string)
    requires ContainsString(Strip(value), target)
    ensures ContainsString(value, target)
  {
    match value
    case Array(items) =>
      var i :| 0 <= i < |items| && ContainsString(Strip(items[i]), target);
      StripKeepsStrings(items[i], target);
    case Object(fields) =>
      var key :| key in Strip(value).fields && ContainsString(Strip(value).fields[key], target);
      StripKeepsStrings(fields[key], target);
    case _ =>
  }
}
