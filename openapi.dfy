/**
 * The part of the OpenAPI description the explorer reads: the operations
 * under each path, their tags, parameters and whether they take a body;
 * and `operationsByTag` (app.js), which lists the operations carrying a tag.
 */
module OpenApi {
  import opened Wrappers

  /** Where a parameter goes (`in`); Unresolved stands for a parameter without one, such as a `$ref`. */
  datatype Location = InPath | InQuery | InHeader | InCookie | Unresolved

  datatype Parameter = Parameter(name: string, location: Location)

  /**
   * An operation object: `tags` is None when absent; `hasRequestBody` is
   * `!!op.requestBody`. An absent `operationId` is the string "undefined"
   * here, which is what string concatenation makes of it (its history key is
   * then `hist_undefined`, shared by every such operation).
   */
  datatype Operation = Operation(
    operationId: string,
    tags: Option<seq<string>>,
    parameters: seq<Parameter>,
    hasRequestBody: bool)

  /** One entry of `openapi.paths`, its operations in `Object.entries` order. */
  datatype PathItem = PathItem(path: string, methods: seq<(string, Operation)>)

  /** An element `{path, method, op}` of the list `operationsByTag` returns. */
  datatype Endpoint = Endpoint(path: string, verb: string, op: Operation)

  /** `op.tags && op.tags.includes(tag)`. */
  predicate HasTag(op: Operation, tag: string)
  {
    op.tags.Some? && tag in op.tags.value
  }

  /** The endpoints of one path item that carry `tag`, in order. */
  function TaggedIn(path: string, methods: seq<(string, Operation)>, tag: string): seq<Endpoint>
  {
    if methods == [] then []
    else
      var last := methods[|methods| - 1];
      TaggedIn(path, methods[..|methods| - 1], tag)
        + (if HasTag(last.1, tag) then [Endpoint(path, last.0, last.1)] else [])
  }

  /** The endpoints of all path items that carry `tag`, path by path, in order. */
  function Tagged(paths: seq<PathItem>, tag: string): seq<Endpoint>
  {
    if paths == [] then []
    else
      var last := paths[|paths| - 1];
      Tagged(paths[..|paths| - 1], tag) + TaggedIn(last.path, last.methods, tag)
  }

  /** `operationsByTag(tag)`: the two nested loops that push each matching operation. */
  method OperationsByTag(paths: seq<PathItem>, tag: string) returns (ops: seq<Endpoint>)
    ensures ops == Tagged(paths, tag)
  {
    ops := [];
    var i := 0;
    while i < |paths|
      invariant 0 <= i <= |paths|
      invariant ops == Tagged(paths[..i], tag)
    {
      var item := paths[i];
      var j := 0;
      while j < |item.methods|
        invariant 0 <= j <= |item.methods|
        invariant ops == Tagged(paths[..i], tag) + TaggedIn(item.path, item.methods[..j], tag)
      {
        var (verb, op) := item.methods[j];
        if op.tags.Some? && tag in op.tags.value {
          ops := ops + [Endpoint(item.path, verb, op)];
        }
        assert item.methods[..j + 1][..j] == item.methods[..j];
        j := j + 1;
      }
      assert item.methods[..j] == item.methods;
      assert paths[..i + 1][..i] == paths[..i];
      i := i + 1;
    }
    assert paths[..i] == paths;
  }

  /** An endpoint is listed for one path item exactly when it is one of its operations and carries the tag. */
  lemma {:induction false} TaggedInMembership(path: string, methods: seq<(string, Operation)>, tag: string, e: Endpoint)
    ensures e in TaggedIn(path, methods, tag) <==>
            e.path == path && HasTag(e.op, tag) && (e.verb, e.op) in methods
  {
    if methods != [] {
      var init := methods[..|methods| - 1];
      TaggedInMembership(path, init, tag, e);
      assert methods == init + [methods[|methods| - 1]];
    }
  }

  /** Every listed endpoint carries the tag and comes from some path item of the description. */
  lemma {:induction false} TaggedSound(paths: seq<PathItem>, tag: string, e: Endpoint)
    requires e in Tagged(paths, tag)
    ensures HasTag(e.op, tag)
    ensures exists i :: 0 <= i < |paths| && paths[i].path == e.path && (e.verb, e.op) in paths[i].methods
  {
    assert paths != [];
    var n := |paths| - 1;
    var init := paths[..n];
    assert Tagged(paths, tag) == Tagged(init, tag) + TaggedIn(paths[n].path, paths[n].methods, tag);
    if e in Tagged(init, tag) {
      TaggedSound(init, tag, e);
      var i :| 0 <= i < |init| && init[i].path == e.path && (e.verb, e.op) in init[i].methods;
      assert paths[i] == init[i];
    } else {
      TaggedInMembership(paths[n].path, paths[n].methods, tag, e);
    }
  }

  /** Every operation of a path item that carries the tag is listed. */
  lemma {:induction false} TaggedComplete(paths: seq<PathItem>, tag: string, e: Endpoint, i: int)
    requires 0 <= i < |paths| && paths[i].path == e.path && (e.verb, e.op) in paths[i].methods
    requires HasTag(e.op, tag)
    ensures e in Tagged(paths, tag)
  {
    var n := |paths| - 1;
    var init := paths[..n];
    assert Tagged(paths, tag) == Tagged(init, tag) + TaggedIn(paths[n].path, paths[n].methods, tag);
    if i < n {
      assert init[i] == paths[i];
      TaggedComplete(init, tag, e, i);
    } else {
      TaggedInMembership(paths[n].path, paths[n].methods, tag, e);
    }
  }

  /**
   * Soundness and completeness of `operationsByTag`: an endpoint is listed
   * exactly when some path item has that path and that operation under that
   * method, and the operation carries the tag.
   */
  lemma TaggedMembership(paths: seq<PathItem>, tag: string, e: Endpoint)
    ensures e in Tagged(paths, tag) <==>
            HasTag(e.op, tag) &&
            exists i :: 0 <= i < |paths| && paths[i].path == e.path && (e.verb, e.op) in paths[i].methods
  {
    if e in Tagged(paths, tag) {
      TaggedSound(paths, tag, e);
    } else if HasTag(e.op, tag) && exists i :: 0 <= i < |paths| && paths[i].path == e.path && (e.verb, e.op) in paths[i].methods {
      var i :| 0 <= i < |paths| && paths[i].path == e.path && (e.verb, e.op) in paths[i].methods;
      TaggedComplete(paths, tag, e, i);
    }
  }

  /** The listing keeps the order of `openapi.paths`: listing a split description lists each part in turn. */
  lemma {:induction false} TaggedConcat(first: seq<PathItem>, second: seq<PathItem>, tag: string)
    ensures Tagged(first + second, tag) == Tagged(first, tag) + Tagged(second, tag)
    decreases |second|
  {
    if second == [] {
      assert first + second == first;
    } else {
      var n := |second| - 1;
      var whole := first + second;
      assert whole[..|whole| - 1] == first + second[..n];
      assert whole[|whole| - 1] == second[n];
      TaggedConcat(first, second[..n], tag);
      assert Tagged(whole, tag) == Tagged(first + second[..n], tag) + TaggedIn(second[n].path, second[n].methods, tag);
      assert Tagged(second, tag) == Tagged(second[..n], tag) + TaggedIn(second[n].path, second[n].methods, tag);
    }
  }
}
