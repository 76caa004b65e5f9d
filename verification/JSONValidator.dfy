/** Filling a submitted document with schema defaults. */
module DefaultMerge {
  import opened Wrappers
  import opened JsonValues

  /** The part of a schema that defaults come from. */
  datatype Schema = Schema(default: Option<Json>, isObject: bool, properties: map<string, Schema>)

  /** The default of one property: its own, or what its nested properties add up to, if anything. */
  function DefaultOf(s: Schema): Option<Json>
    decreases s, 1
  {
    if s.default.Some? then s.default
    else if s.isObject && Defaults(s).fields != map[] then Some(Defaults(s))
    else None
  }

  function Defaults(s: Schema): (defaults: Json)
    ensures defaults.JObject?
    decreases s, 0
  {
    JObject(map name | name in s.properties && DefaultOf(s.properties[name]).Some? ::
      DefaultOf(s.properties[name]).value)
  }

  /** Overrides win, except that two objects under one key are merged in turn. */
  function Merged(target: Json, overrides: Json): (merged: Json)
    requires target.JObject? && overrides.JObject?
    ensures merged.JObject?
    decreases overrides
  {
    JObject(map k | k in target.fields.Keys + overrides.fields.Keys ::
      if k !in overrides.fields then target.fields[k]
      else if overrides.fields[k].JObject? && k in target.fields && target.fields[k].JObject?
      then Merged(target.fields[k], overrides.fields[k])
      else overrides.fields[k])
  }

  lemma KeyOfMerge(target: Json, overrides: Json, k: string)
    requires target.JObject? && overrides.JObject?
    ensures
      var merged := Merged(target, overrides).fields;
      && (k in merged <==> k in target.fields || k in overrides.fields)
      && (k in merged ==>
            merged[k]
            == if k !in overrides.fields then target.fields[k]
               else if overrides.fields[k].JObject? && k in target.fields && target.fields[k].JObject?
               then Merged(target.fields[k], overrides.fields[k])
               else overrides.fields[k])
  {
  }

  // ---- Resolving twice changes nothing ----

  lemma {:induction false} MergeSelf(d: Json)
    requires d.JObject?
    ensures Merged(d, d) == d
    decreases d
  {
    forall k | k in d.fields ensures Merged(d, d).fields[k] == d.fields[k] {
      if d.fields[k].JObject? {
        MergeSelf(d.fields[k]);
      }
    }
    assert Merged(d, d).fields == d.fields;
  }

  /** Merging defaults under an already resolved document, nested to any depth, changes nothing. */
  lemma {:induction false} MergeIsIdempotent(defaults: Json, submitted: Json)
    requires defaults.JObject? && submitted.JObject?
    ensures Merged(defaults, Merged(defaults, submitted)) == Merged(defaults, submitted)
    decreases submitted
  {
    var once := Merged(defaults, submitted);
    var twice := Merged(defaults, once);
    assert twice.fields.Keys == once.fields.Keys;
    forall k | k in once.fields ensures twice.fields[k] == once.fields[k] {
      if once.fields[k].JObject? && k in defaults.fields && defaults.fields[k].JObject? {
        if k !in submitted.fields {
          MergeSelf(defaults.fields[k]);
        } else {
          MergeIsIdempotent(defaults.fields[k], submitted.fields[k]);
        }
      }
    }
    assert twice.fields == once.fields;
  }

  // ---- Every leaf comes from the submission, or else from the defaults ----

  type Path = seq<string>

  function Lookup(document: Json, path: Path): Option<Json>
    decreases |path|
  {
    if path == [] then Some(document)
    else if document.JObject? && path[0] in document.fields then Lookup(document.fields[path[0]], path[1..])
    else None
  }

  /** The submission has something at the path, or a value that is no object on the way to it. */
  predicate Overrides(submitted: Json, path: Path)
    decreases |path|
  {
    || path == []
    || !submitted.JObject?
    || (path[0] in submitted.fields && Overrides(submitted.fields[path[0]], path[1..]))
  }

  /** A leaf of the result is a submitted leaf, or a default that the submission leaves alone; and conversely. */
  lemma {:induction false} LeavesOfMerge(defaults: Json, submitted: Json, path: Path, leaf: Json)
    requires defaults.JObject? && submitted.JObject? && path != [] && !leaf.JObject?
    ensures Lookup(Merged(defaults, submitted), path) == Some(leaf)
       <==> (Lookup(submitted, path) == Some(leaf)
             || (Lookup(defaults, path) == Some(leaf) && !Overrides(submitted, path)))
    decreases submitted
  {
    var k, rest := path[0], path[1..];
    var merged := Merged(defaults, submitted);
    KeyOfMerge(defaults, submitted, k);
    if k in submitted.fields && submitted.fields[k].JObject? && k in defaults.fields && defaults.fields[k].JObject? {
      if rest == [] {
        assert merged.fields[k].JObject?;
      } else {
        LeavesOfMerge(defaults.fields[k], submitted.fields[k], rest, leaf);
      }
    } else if k in submitted.fields && submitted.fields[k].JObject? {
      assert merged.fields[k] == submitted.fields[k];
      if k in defaults.fields {
        NothingBelowLeaf(defaults.fields[k], rest);
        if rest != [] {
          assert Lookup(defaults, path) == None;
        }
      }
    }
  }

  lemma NothingBelowLeaf(document: Json, path: Path)
    requires !document.JObject?
    ensures Lookup(document, path) == if path == [] then Some(document) else None
  {
  }

  // ---- Where defaults come from ----

  /** Walk down the schema: the first property on the path with a default of its own decides what is below it. */
  function DefaultAt(s: Schema, path: Path): Option<Json>
    decreases |path|
  {
    if path == [] || path[0] !in s.properties then None
    else
      var node := s.properties[path[0]];
      if node.default.Some? then Lookup(node.default.value, path[1..])
      else if node.isObject then DefaultAt(node, path[1..])
      else None
  }

  /** The defaults that are built bottom-up have a leaf at a path exactly if the walk finds it there. */
  lemma {:induction false} DefaultsComeFromSchema(s: Schema, path: Path, leaf: Json)
    requires path != [] && !leaf.JObject?
    ensures Lookup(Defaults(s), path) == Some(leaf) <==> DefaultAt(s, path) == Some(leaf)
    decreases |path|
  {
    var k, rest := path[0], path[1..];
    if k in s.properties {
      var node := s.properties[k];
      if node.default.None? && node.isObject && rest != [] {
        DefaultsComeFromSchema(node, rest, leaf);
      }
    }
  }

  /** A property without a default of its own appears only if something is below it. */
  lemma EmptyObjectsAreLeftOut(s: Schema, k: string)
    requires k in Defaults(s).fields && k in s.properties && s.properties[k].default.None?
    ensures s.properties[k].isObject && Defaults(s).fields[k] != JObject(map[])
  {
  }

  // ---- The whole resolution ----

  datatype ValidationError = NotAnObject | Rejected

  /** Validation itself is an arbitrary predicate on the merged document. */
  function Resolve(schema: Schema, valid: Json -> bool, submitted: Json): Result<Json, ValidationError> {
    if !submitted.JObject? then Err(NotAnObject)
    else
      var resolved := Merged(Defaults(schema), submitted);
      if valid(resolved) then Ok(resolved) else Err(Rejected)
  }

  /** What is accepted is an object that has passed validation with its defaults filled in; all else is refused. */
  lemma ResolveAcceptsExactly(schema: Schema, valid: Json -> bool, submitted: Json)
    ensures
      var r := Resolve(schema, valid, submitted);
      && (r == Err(NotAnObject) <==> !submitted.JObject?)
      && (r == Err(Rejected) <==> submitted.JObject? && !valid(Merged(Defaults(schema), submitted)))
      && (r.Ok? ==> submitted.JObject? && r.value.JObject? && valid(r.value))
  {
  }

  /** A resolved document resolves to itself. */
  lemma ResolveIsIdempotent(schema: Schema, valid: Json -> bool, submitted: Json)
    requires Resolve(schema, valid, submitted).Ok?
    ensures
      var resolved := Resolve(schema, valid, submitted).value;
      Resolve(schema, valid, resolved) == Ok(resolved)
  {
    MergeIsIdempotent(Defaults(schema), submitted);
  }

  /** Every leaf that was submitted is still there. */
  lemma SubmittedLeavesSurvive(schema: Schema, valid: Json -> bool, submitted: Json, path: Path)
    requires Resolve(schema, valid, submitted).Ok? && path != []
    requires Lookup(submitted, path).Some? && !Lookup(submitted, path).value.JObject?
    ensures Lookup(Resolve(schema, valid, submitted).value, path) == Lookup(submitted, path)
  {
    LeavesOfMerge(Defaults(schema), submitted, path, Lookup(submitted, path).value);
  }
}
