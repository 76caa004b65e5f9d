/** Documents as mutable dictionaries: the merge updates its target in place and shares nothing. */
module MutableJson {
  import opened JsonValues
  import opened DefaultMerge

  /** A value in a dictionary: a nested dictionary, or anything else. */
  datatype Value = Scalar(json: Json) | Nested(dict: Dict)

  /** Half-way through a merge: the keys in `left` still have their old values. */
  ghost function Partial(before: Json, overrides: Json, left: set<string>): Json
    requires before.JObject? && overrides.JObject?
  {
    JObject(map k | k in before.fields.Keys + (overrides.fields.Keys - left) ::
      KeyOfMerge(before, overrides, k);
      if k in overrides.fields && k !in left then Merged(before, overrides).fields[k] else before.fields[k])
  }

  lemma PartialStarts(before: Json, overrides: Json)
    requires before.JObject? && overrides.JObject?
    ensures Partial(before, overrides, overrides.fields.Keys) == before
  {
    assert Partial(before, overrides, overrides.fields.Keys).fields == before.fields;
  }

  lemma PartialEnds(before: Json, overrides: Json)
    requires before.JObject? && overrides.JObject?
    ensures Partial(before, overrides, {}) == Merged(before, overrides)
  {
    var partial, goal := Partial(before, overrides, {}).fields, Merged(before, overrides).fields;
    forall k ensures k in partial <==> k in goal {
      KeyOfMerge(before, overrides, k);
    }
    forall k | k in partial ensures partial[k] == goal[k] {
      KeyOfMerge(before, overrides, k);
    }
    assert partial == goal;
  }

  /** The new value of one key, given its old one if any. */
  ghost function Override(target: Json, overrides: Json, key: string): Json
    requires target.JObject? && overrides.JObject? && key in overrides.fields
  {
    var o := overrides.fields[key];
    if o.JObject? && key in target.fields && target.fields[key].JObject? then Merged(target.fields[key], o) else o
  }

  lemma PartialGoesOn(before: Json, overrides: Json, left: set<string>, key: string)
    requires before.JObject? && overrides.JObject? && left <= overrides.fields.Keys && key in left
    ensures
      var partial := Partial(before, overrides, left);
      Partial(before, overrides, left - {key}) == JObject(partial.fields[key := Override(partial, overrides, key)])
  {
    KeyOfMerge(before, overrides, key);
    var partial, next := Partial(before, overrides, left).fields, Partial(before, overrides, left - {key}).fields;
    assert Override(JObject(partial), overrides, key) == Merged(before, overrides).fields[key];
    assert next == partial[key := Merged(before, overrides).fields[key]];
  }

  class Dict {
    var fields: map<string, Value>

    /** The document that the tree below this dictionary holds, and its dictionaries. */
    ghost var doc: Json
    ghost var Repr: set<Dict>

    /** One entry agrees with the document; a nested dictionary is a tree below this one. */
    ghost predicate Entry(k: string)
      requires k in fields
      reads this, Repr
      decreases Repr, 0
    {
      && doc.JObject? && k in doc.fields
      && match fields[k]
         case Scalar(json) => doc.fields[k] == json && !json.JObject?
         case Nested(child) =>
           && this in Repr && child in Repr && child.Repr <= Repr && this !in child.Repr
           && doc.fields[k] == child.doc && child.Valid()
    }

    /** Siblings share no dictionary. */
    ghost predicate Apart(j: string, k: string)
      requires j in fields && k in fields && (forall i | i in {j, k} :: fields[i].Nested? ==> fields[i].dict in Repr)
      reads this, Repr
    {
      fields[j].Nested? && fields[k].Nested? ==> fields[j].dict.Repr !! fields[k].dict.Repr
    }

    /** A tree of dictionaries that holds its document. */
    ghost predicate Valid()
      reads this, Repr
      decreases Repr, 1
    {
      && this in Repr
      && doc.JObject? && doc.fields.Keys == fields.Keys
      && (forall k | k in fields :: Entry(k))
      && (forall j, k {:trigger Apart(j, k)} | j in fields && k in fields && j != k ::
            Entry(j) && Entry(k) && Apart(j, k))
    }

    constructor ()
      ensures Valid() && doc == JObject(map[]) && Repr == {this}
    {
      fields, doc, Repr := map[], JObject(map[]), {this};
    }

    method Put(key: string, json: Json)
      requires Valid() && !json.JObject?
      modifies this
      ensures Valid() && Repr == old(Repr) && doc == JObject(old(doc).fields[key := json])
    {
      fields := fields[key := Scalar(json)];
      doc := JObject(doc.fields[key := json]);
      forall k | k in fields ensures Entry(k) {
        assert k != key ==> old(Entry(k));
      }
      forall j, k | j in fields && k in fields && j != k ensures Entry(j) && Entry(k) && Apart(j, k) {
        assert j != key && k != key ==> old(Apart(j, k));
      }
    }

    /** Valid, but for one key about to be set. */
    ghost predicate ValidBut(key: string)
      reads this, Repr
    {
      && this in Repr
      && doc.JObject? && doc.fields.Keys == fields.Keys
      && (forall k | k in fields && k != key :: Entry(k))
      && (forall j, k {:trigger Apart(j, k)} | j in fields && k in fields && j != k && j != key && k != key ::
            Entry(j) && Entry(k) && Apart(j, k))
    }

    /** No other nested dictionary shares anything with this one. */
    ghost predicate OthersApart(key: string, child: Dict)
      requires ValidBut(key)
      reads this, Repr, child
    {
      forall k | k in fields && k != key && fields[k].Nested? ::
        Entry(k) && fields[k].dict.Repr !! child.Repr
    }

    method Attach(key: string, child: Dict)
      requires ValidBut(key) && child.Valid() && this !in child.Repr && OthersApart(key, child)
      modifies this
      ensures Valid() && Repr == old(Repr) + child.Repr && doc == JObject(old(doc).fields[key := child.doc])
    {
      fields := fields[key := Nested(child)];
      doc := JObject(doc.fields[key := child.doc]);
      Repr := Repr + child.Repr;
      forall k | k in fields ensures Entry(k) {
        assert k != key ==> old(Entry(k));
      }
      forall j, k | j in fields && k in fields && j != k ensures Entry(j) && Entry(k) && Apart(j, k) {
        assert j != key && k != key ==> old(Apart(j, k));
      }
    }

    /** A deep copy: the same document in new dictionaries. */
    method Copy() returns (copy: Dict)
      requires Valid()
      ensures copy.Valid() && fresh(copy.Repr) && copy.doc == doc
      decreases Repr, 1
    {
      copy := new Dict();
      var keys := fields.Keys;
      while keys != {}
        invariant keys <= fields.Keys
        invariant copy.Valid() && fresh(copy.Repr)
        invariant copy.doc == JObject(map k | k in doc.fields && k !in keys :: doc.fields[k])
        decreases |keys|
      {
        var key :| key in keys;
        keys := keys - {key};
        CopyEntry(copy, key);
        assert copy.doc.fields == map k | k in doc.fields && k !in keys :: doc.fields[k];
      }
      assert (map k | k in doc.fields && k !in keys :: doc.fields[k]) == doc.fields;
    }

    /** Copy one entry of this dictionary into another one. */
    method CopyEntry(target: Dict, key: string)
      requires Valid() && target.Valid() && Repr !! target.Repr && key in fields
      modifies target
      ensures target.Valid() && fresh(target.Repr - old(target.Repr))
      ensures target.doc == JObject(old(target.doc).fields[key := doc.fields[key]])
      decreases Repr, 0
    {
      var value := fields[key];
      assert Entry(key);
      if value.Nested? {
        var child := value.dict.Copy();
        AttachNew(target, key, child);
      } else {
        target.Put(key, value.json);
      }
    }

    /** Update this dictionary in place with the entries of another one, which stays as it is. */
    method Merge(overrides: Dict)
      requires Valid() && overrides.Valid() && Repr !! overrides.Repr
      modifies Repr
      ensures Valid() && fresh(Repr - old(Repr))
      ensures doc == Merged(old(doc), overrides.doc)
      decreases overrides.Repr, 2
    {
      var keys := overrides.fields.Keys;
      PartialStarts(doc, overrides.doc);
      while keys != {}
        invariant keys <= overrides.fields.Keys
        invariant Valid() && overrides.Valid() && Repr !! overrides.Repr && fresh(Repr - old(Repr))
        invariant doc == Partial(old(doc), overrides.doc, keys)
        decreases |keys|
      {
        var key :| key in keys;
        PartialGoesOn(old(doc), overrides.doc, keys, key);
        keys := keys - {key};
        MergeEntry(overrides, key);
      }
      PartialEnds(old(doc), overrides.doc);
    }

    /** One entry of the overrides: merged into a nested dictionary, or copied over whatever is there. */
    method MergeEntry(overrides: Dict, key: string)
      requires Valid() && overrides.Valid() && Repr !! overrides.Repr && key in overrides.fields
      modifies Repr
      ensures Valid() && fresh(Repr - old(Repr))
      ensures doc == JObject(old(doc).fields[key := Override(old(doc), overrides.doc, key)])
      ensures overrides.Valid() && unchanged(overrides) && Repr !! overrides.Repr
      decreases overrides.Repr, 1
    {
      assert overrides.Entry(key);
      if key in fields {
        assert Entry(key);
      }
      var value := overrides.fields[key];
      if value.Nested? && key in fields && fields[key].Nested? {
        MergeChild(key, value.dict);
      } else {
        overrides.CopyEntry(this, key);
      }
    }

    method MergeChild(key: string, overrides: Dict)
      requires Valid() && overrides.Valid() && Repr !! overrides.Repr
      requires key in fields && fields[key].Nested? && fields[key].dict in Repr
      modifies Repr
      ensures Valid() && fresh(Repr - old(Repr))
      ensures key in old(doc).fields && old(doc).fields[key].JObject?
      ensures doc == JObject(old(doc).fields[key := Merged(old(doc).fields[key], overrides.doc)])
      decreases overrides.Repr, 3
    {
      assert Entry(key);
      var child := fields[key].dict;
      child.Merge(overrides);
      forall k | k in fields && k != key && fields[k].Nested?
        ensures Untouched(fields[k].dict) && fields[k].dict.Repr !! child.Repr
      {
        var sibling := fields[k].dict;
        assert old(Entry(k)) && old(Apart(k, key));
        assert old(sibling.Valid()) && old(sibling.Repr) !! old(child.Repr);
        assert forall d | d in old(sibling.Repr) :: unchanged(d);
      }
      forall k | k in fields && k != key ensures Entry(k) {
        assert old(Entry(k));
      }
      forall j, k | j in fields && k in fields && j != k && j != key && k != key
        ensures Entry(j) && Entry(k) && Apart(j, k)
      {
        assert old(Apart(j, k));
      }
      Attach(key, child);
    }
  }

  /** A tree that a merge elsewhere has left alone. */
  twostate predicate Untouched(d: Dict)
    reads d, d.Repr
  {
    d.Valid() && d.Repr == old(d.Repr) && d.doc == old(d.doc)
  }

  /** A tree of new dictionaries for a document. */
  method Build(document: Json) returns (d: Dict)
    requires document.JObject?
    ensures d.Valid() && fresh(d.Repr) && d.doc == document
    decreases document
  {
    d := new Dict();
    var keys := document.fields.Keys;
    while keys != {}
      invariant keys <= document.fields.Keys
      invariant d.Valid() && fresh(d.Repr)
      invariant d.doc == JObject(map k | k in document.fields && k !in keys :: document.fields[k])
      decreases |keys|
    {
      var key :| key in keys;
      keys := keys - {key};
      var value := document.fields[key];
      if value.JObject? {
        var child := Build(value);
        AttachNew(d, key, child);
      } else {
        d.Put(key, value);
      }
      assert d.doc.fields == map k | k in document.fields && k !in keys :: document.fields[k];
    }
    assert (map k | k in document.fields && k !in keys :: document.fields[k]) == document.fields;
  }

  /** Attach a tree that shares nothing with its new parent. */
  method AttachNew(d: Dict, key: string, child: Dict)
    requires d.Valid() && child.Valid() && d.Repr !! child.Repr
    modifies d
    ensures d.Valid() && d.Repr == old(d.Repr) + child.Repr && d.doc == JObject(old(d.doc).fields[key := child.doc])
  {
    assert forall k | k in d.fields && k != key :: d.Entry(k);
    d.Attach(key, child);
  }

  /** The defaults of a schema as new dictionaries. */
  method FillDefaults(s: Schema) returns (defaults: Dict)
    ensures defaults.Valid() && fresh(defaults.Repr) && defaults.doc == Defaults(s)
    decreases s, 0
  {
    defaults := new Dict();
    var names := s.properties.Keys;
    ghost var goal := Defaults(s).fields;
    while names != {}
      invariant names <= s.properties.Keys
      invariant defaults.Valid() && fresh(defaults.Repr)
      invariant defaults.doc == JObject(map k | k in goal && k !in names :: goal[k])
      decreases |names|
    {
      var name :| name in names;
      names := names - {name};
      FillDefault(s.properties[name], defaults, name);
      assert defaults.doc.fields == map k | k in goal && k !in names :: goal[k];
    }
    assert (map k | k in goal && k !in names :: goal[k]) == goal;
  }

  /** The default of one property, if it has one. */
  method FillDefault(property: Schema, defaults: Dict, name: string)
    requires defaults.Valid()
    modifies defaults
    ensures defaults.Valid() && fresh(defaults.Repr - old(defaults.Repr))
    ensures
      defaults.doc
      == match DefaultOf(property)
         case None => old(defaults.doc)
         case Some(value) => JObject(old(defaults.doc).fields[name := value])
    decreases property, 1
  {
    if property.default.Some? {
      var value := property.default.value;
      if value.JObject? {
        var child := Build(value);
        AttachNew(defaults, name, child);
      } else {
        defaults.Put(name, value);
      }
    } else if property.isObject {
      var nested := FillDefaults(property);
      if nested.fields != map[] {
        AttachNew(defaults, name, nested);
      }
    }
  }

  /** Defaults below a submission: the result consists of new dictionaries only, and the submission stays as it is. */
  method ResolveDocument(s: Schema, submitted: Dict) returns (resolved: Dict)
    requires submitted.Valid()
    ensures resolved.Valid() && fresh(resolved.Repr)
    ensures resolved.doc == Merged(Defaults(s), submitted.doc)
  {
    resolved := FillDefaults(s);
    resolved.Merge(submitted);
  }
}
